// Counting the classifier threads at given program points.
module ThreadCounts {
  import opened Prelude
  import opened FlowMaps
  import opened PacketPath

  /** Properties of program points that the shared counters count. */
  datatype Tag = InFlight(key: FlowKey) | SlotHolder | Granted

  /** Between fetch-add and fetch-sub on the packet counter of generation k. */
  predicate IsCounted(pc: Pc, k: FlowKey) {
    pc.Inside? && pc.key == k && !pc.at.First? && !pc.at.FindFlight? && !pc.at.Enter?
  }

  /** Holding one unit of the slot count that no state or journal entry stands for. */
  predicate IsGranted(pc: Pc) {
    pc.GiveBack? || (pc.Making? && (pc.stage.ReleaseClaim? || pc.stage.InsertState?))
  }

  predicate Has(tag: Tag, pc: Pc) {
    match tag
    case InFlight(k) => IsCounted(pc, k)
    case SlotHolder => pc.Overshoot? || IsGranted(pc)
    case Granted => IsGranted(pc)
  }

  function Members(threads: map<nat, Pc>, tag: Tag): set<nat> {
    set p | p in threads && Has(tag, threads[p])
  }

  /** Moving one thread changes a count by what that thread gains and loses. */
  lemma MembersAfter(threads: map<nat, Pc>, p: nat, pc': Pc, tag: Tag)
    ensures |Members(threads[p := pc'], tag)|
         == |Members(threads, tag)| - One(p in threads && Has(tag, threads[p])) + One(Has(tag, pc'))
  {
    var before, after := Members(threads, tag), Members(threads[p := pc'], tag);
    assert before - {p} == after - {p};
    SwapOne(before, after, p);
  }

  lemma NobodyCounted(threads: map<nat, Pc>, tag: Tag, p: nat)
    requires |Members(threads, tag)| == 0 && p in threads
    ensures !Has(tag, threads[p])
  {
    assert Members(threads, tag) == {};
    assert p !in Members(threads, tag);
  }
}
