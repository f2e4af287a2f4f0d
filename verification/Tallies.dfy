/** A tally counts its member's joins, and a join approved for one count can land only once. */
module Tallies {
  import opened Machine
  import opened Ledger
  import opened Instructions
  import opened Audit
  import opened Safety

  ghost predicate Counted(tallies: map<Key, JoinTally>, counts: map<Key, JoinCount>) {
    && tallies.Keys == counts.Keys
    && forall t :: t in tallies ==>
         && tallies[t].joins == counts[t].joins >= 1
         && tallies[t].rentPayer == counts[t].firstPayer
  }

  /** Every tally on chain counts the joins since it was opened and keeps the first join's payer. */
  ghost predicate TallyInv(a: Audit) {
    Counted(a.world.tallies, a.joinCounts)
  }

  /** Only a join or a tally close touches a tally. */
  lemma OtherTallies(w: World, tx: Tx)
    requires Refusal(w, tx).None? && !tx.ins.JoinGroup? && !tx.ins.CloseJoinTally?
    ensures After(w, tx).tallies == w.tallies
  {
    hide Refusal;
    if tx.ins.Distribute? || tx.ins.EmergencyCancel? {
      hide DistributeReceipt, CancelReceipt;
    }
  }

  lemma JoinCounts(w: World, tx: Tx)
    requires tx.ins.JoinGroup? && JoinRefusal(w, tx).None?
    ensures var t := TallyAddr(tx.ins.group, tx.ins.member);
            && JoinsOf(w, t) < U32_MAX
            && Joined(w, tx).tallies == w.tallies[t := NextTally(w, t, tx.ins.rentPayer)]
            && (tx.ins.expectedJoins.Some? ==> tx.ins.expectedJoins.value == JoinsOf(w, t))
  {
    hide GateError, JoinFunded, NewRecord;
  }

  lemma ProgramTallies(w: World, tx: Tx)
    requires Refusal(w, tx).None?
    ensures After(w, tx).tallies
         == if tx.ins.JoinGroup? then Joined(w, tx).tallies
            else if tx.ins.CloseJoinTally? then w.tallies - {TallyAddr(tx.ins.group, tx.ins.member)}
            else w.tallies
  {
    if tx.ins.CloseJoinTally? {
      hide Refusal;
      assert TallyClosed(w, tx).tallies == w.tallies - {TallyAddr(tx.ins.group, tx.ins.member)};
    } else if tx.ins.JoinGroup? {
      hide JoinRefusal, Joined;
    } else {
      OtherTallies(w, tx);
      hide *;
    }
  }

  /** The tallies after any event. */
  lemma NextTallies(w: World, ev: Event)
    ensures Next(w, ev).tallies
         == if !Happens(w, ev) || ev.Outside? then w.tallies
            else if ev.tx.ins.JoinGroup? then Joined(w, ev.tx).tallies
            else if ev.tx.ins.CloseJoinTally? then w.tallies - {TallyAddr(ev.tx.ins.group, ev.tx.ins.member)}
            else w.tallies
  {
    if !Happens(w, ev) {
    } else if ev.Program? {
      hide Refusal, After, Joined, EnvOk;
      ProgramTallies(w, ev.tx);
    } else {
      OutsideTallies(w, ev.env);
      hide EnvOk, EnvAfter;
    }
  }

  lemma OutsideTallies(w: World, e: Env)
    requires EnvOk(w, e)
    ensures EnvAfter(w, e).tallies == w.tallies
  {
    hide EnvOk;
  }

  /** A tally closes only where no group lives. */
  lemma CloseNeedsNoGroup(w: World, ev: Event)
    requires Happens(w, ev) && ev.Program? && ev.tx.ins.CloseJoinTally?
    ensures ev.tx.ins.group !in w.groups
  {
  }

  lemma JoinHappens(w: World, ev: Event)
    requires Happens(w, ev) && ev.Program? && ev.tx.ins.JoinGroup?
    ensures JoinRefusal(w, ev.tx).None?
  {
    hide JoinRefusal;
  }

  lemma CountedJoin(w: World, tx: Tx, counts: map<Key, JoinCount>)
    requires tx.ins.JoinGroup? && JoinsOf(w, TallyAddr(tx.ins.group, tx.ins.member)) < U32_MAX
    requires Counted(w.tallies, counts)
    ensures var t := TallyAddr(tx.ins.group, tx.ins.member);
            Counted(w.tallies[t := NextTally(w, t, tx.ins.rentPayer)], NextCounts(tx, counts))
  {
  }

  lemma CountedOther(w: World, tx: Tx, counts: map<Key, JoinCount>)
    requires !tx.ins.JoinGroup? && Counted(w.tallies, counts)
    ensures tx.ins.CloseJoinTally? ==>
              Counted(w.tallies - {TallyAddr(tx.ins.group, tx.ins.member)}, NextCounts(tx, counts))
    ensures !tx.ins.CloseJoinTally? ==> Counted(w.tallies, NextCounts(tx, counts))
  {
  }

  lemma TallyStep(a: Audit, ev: Event)
    requires TallyInv(a)
    ensures TallyInv(Step(a, ev))
  {
    hide Next, Happens, Step, JoinRefusal, Joined, Counted, NextCounts, NextTally, Gift, JoinsOf;
    StepParts(a, ev);
    NextTallies(a.world, ev);
    if Happens(a.world, ev) && ev.Program? {
      if ev.tx.ins.JoinGroup? {
        JoinHappens(a.world, ev);
        JoinCounts(a.world, ev.tx);
        CountedJoin(a.world, ev.tx, a.joinCounts);
      } else {
        CountedOther(a.world, ev.tx, a.joinCounts);
      }
    }
  }

  lemma {:induction false} TallyRun(a: Audit, events: seq<Event>)
    requires TallyInv(a)
    ensures TallyInv(Run(a, events))
    decreases |events|
  {
    if events != [] {
      TallyRun(a, events[..|events| - 1]);
      TallyStep(Run(a, events[..|events| - 1]), events[|events| - 1]);
    }
  }

  /** In every reachable state a stored tally is the number of successful joins of its member at its
      address since it was opened, at least one, and names the payer of the first of them. */
  lemma TallyCounts(a: Audit, t: Key)
    requires Reachable(a)
    ensures t in a.world.tallies <==> t in a.joinCounts
    ensures t in a.world.tallies ==>
              && a.world.tallies[t].joins == a.joinCounts[t].joins >= 1
              && a.world.tallies[t].rentPayer == a.joinCounts[t].firstPayer
  {
    var build, rentRate, events :| a == Run(Genesis(build, rentRate), events);
    TallyRun(Genesis(build, rentRate), events);
  }

  // ---- one approval, one join ----

  /** The group at `g` exists in every state of the run, its first and last included. */
  ghost predicate LivesThrough(a: Audit, events: seq<Event>, g: Key) {
    forall n :: 0 <= n <= |events| ==> g in Run(a, events[..n]).world.groups
  }

  /** While its group exists a tally cannot be closed, so its count never drops. */
  lemma TallyNeverDrops(a: Audit, ev: Event, g: Key, m: Key)
    requires g in a.world.groups
    ensures JoinsOf(Step(a, ev).world, TallyAddr(g, m)) >= JoinsOf(a.world, TallyAddr(g, m))
  {
    hide Next, Happens, Step, JoinRefusal, Joined;
    StepParts(a, ev);
    NextTallies(a.world, ev);
    if Happens(a.world, ev) && ev.Program? {
      if ev.tx.ins.JoinGroup? {
        JoinHappens(a.world, ev);
        JoinCounts(a.world, ev.tx);
      } else if ev.tx.ins.CloseJoinTally? {
        CloseNeedsNoGroup(a.world, ev);
      }
    }
  }

  lemma {:induction false} TallyGrows(a: Audit, events: seq<Event>, g: Key, m: Key)
    requires LivesThrough(a, events, g)
    ensures JoinsOf(Run(a, events).world, TallyAddr(g, m)) >= JoinsOf(a.world, TallyAddr(g, m))
    decreases |events|
  {
    if events != [] {
      var n := |events| - 1;
      forall k | 0 <= k <= n ensures g in Run(a, events[..n][..k]).world.groups {
        assert events[..n][..k] == events[..k];
      }
      TallyGrows(a, events[..n], g, m);
      assert g in Run(a, events[..n]).world.groups;
      TallyNeverDrops(Run(a, events[..n]), events[n], g, m);
    }
  }

  /** An accepted join of `m` into `g` that names `count`. */
  ghost predicate JoinFor(a: Audit, ev: Event, g: Key, m: Key, count: nat) {
    && ev.Program? && ev.tx.ins.JoinGroup? && ev.tx.ins.group == g && ev.tx.ins.member == m
    && JoinRefusal(a.world, ev.tx).None?
    && ev.tx.ins.expectedJoins.Some? && ev.tx.ins.expectedJoins.value == count
  }

  lemma JoinRaises(a: Audit, ev: Event, g: Key, m: Key, count: nat)
    requires JoinFor(a, ev, g, m, count)
    ensures JoinsOf(a.world, TallyAddr(g, m)) == count
    ensures JoinsOf(Step(a, ev).world, TallyAddr(g, m)) == count + 1
  {
    assert ev.Program? && ev.tx.ins.JoinGroup? && Happens(a.world, ev);
    hide Next, Happens, Step, JoinRefusal, Joined;
    StepParts(a, ev);
    NextTallies(a.world, ev);
    JoinHappens(a.world, ev);
    JoinCounts(a.world, ev.tx);
  }

  /** Within the life of a group, at most one join of a member that names a given count succeeds:
      after one did, whatever happens in between, the next one is refused. */
  lemma OneJoinPerCount(a: Audit, first: Event, between: seq<Event>, second: Event, g: Key, m: Key, count: nat)
    requires JoinFor(a, first, g, m, count)
    requires LivesThrough(Step(a, first), between, g)
    ensures !JoinFor(Run(Step(a, first), between), second, g, m, count)
  {
    JoinRaises(a, first, g, m, count);
    TallyGrows(Step(a, first), between, g, m);
    var b := Run(Step(a, first), between);
    hide Run, Step, LivesThrough;
    if JoinFor(b, second, g, m, count) {
      JoinRaises(b, second, g, m, count);
    }
  }
}
