/**
 * The two halves of a copy-on-write fault together: the lookup of the partner among the processes,
 * and what the fault does to the tables.
 */
module ForkedPairs {
  import opened Lifecycle
  import opened Scheduler
  import CopyOnWrite

  /**
   * An access by one of a living parent and child completes unless it writes to a page not yet
   * split, in the parent, and the parent is itself a child whose own parent is not queued any more;
   * such a write faults forever.
   */
  lemma PairAccess(sys: Sys, parent: int, child: int, s: CopyOnWrite.Pair, op: CopyOnWrite.Op)
    requires Inv(sys) && LivePair(sys, parent, child)
    requires CopyOnWrite.CowInv(s) && CopyOnWrite.FaultFits(s, op) && !CopyOnWrite.IsNull(op)
    ensures var lost := CopyOnWrite.NeedsPartner(s, op) && sys.active == parent
        && sys.pcbs[parent].ppid != 0 && sys.pcbs[parent].ppid !in sys.queue;
      && (CopyOnWrite.Execute(s, op, HasPartner(sys)).Completed? <==> !lost)
      && (lost ==> CopyOnWrite.Execute(s, op, HasPartner(sys)) == CopyOnWrite.FaultsForever)
  {
    hide *;
    PairParts(sys, parent, child);
    PairFindsPartner(sys, parent, child);
    CopyOnWrite.CompletesIff(s, op, HasPartner(sys));
  }

  lemma PairParts(sys: Sys, parent: int, child: int)
    requires Inv(sys) && LivePair(sys, parent, child)
    ensures parent in sys.pcbs && parent != child && sys.active in {parent, child}
    ensures sys.active in sys.pcbs && Known(sys.queue, sys.pcbs)
  {
  }

  /** There is a run after which this happens: a fork by a process whose own parent has exited. */
  lemma OrphanWrites(s: CopyOnWrite.Pair, op: CopyOnWrite.Op)
    requires CopyOnWrite.CowInv(s) && CopyOnWrite.FaultFits(s, op) && !CopyOnWrite.IsNull(op)
    requires CopyOnWrite.NeedsPartner(s, op)
    ensures var sys := Run(Initial(), ORPHAN_FORKS);
      && Inv(sys) && LivePair(sys, 3, 4) && sys.active == 3
      && CopyOnWrite.Execute(s, op, HasPartner(sys)) == CopyOnWrite.FaultsForever
  {
    hide *;
    OrphanForks();
    PairParts(Run(Initial(), ORPHAN_FORKS), 3, 4);
    CopyOnWrite.CompletesIff(s, op, HasPartner(Run(Initial(), ORPHAN_FORKS)));
  }
}
