/** Concrete fault sequences against one guarded region at 0x1000 of size
    0x100 with a four-byte watchpoint at offset 0x10. */
module PGEScenarios {
  import opened PageGuard
  import opened PGEHandler
  import opened Search

  const Base: Addr := 0x1000
  const Empty := Tables(map[], map[], [])

  function Watched(kind: nat, callback: Option<CallbackId>): Region
  {
    Region(Base, 0x100, [Trigger(0x10, 4, kind, callback)])
  }

  /** A write at 0x1012 by the instruction at 0x4000 hits a write watchpoint:
      the ledger cell keyed (0x1010, 0x4000) goes from absent to count 1, the
      trap flag is set, and the thread's entry names the region and trigger. */
  lemma WriteHitKeyedByInstruction(kinds: KindCodes, write: nat, code: nat)
    requires write != ExecDiscriminator && write != kinds.execute
    requires code == GuardPageViolation || code == AccessViolation
    ensures var f := Fault(code, 2, write, 0x1012, 0x4000, 7, [1, 2]);
            var o := Dispatch(kinds, [Watched(write, None)], Empty, f, false, false);
            && o.verdict == ContinueExecution && o.trap
            && o.tables.ledger == map[0x1010 := map[0x4000 := Info(1, 7, [1, 2])]]
            && o.tables.handling == map[7 := Step(Base, Trigger(0x10, 4, write, None))]
            && o.tables.restores == []
  {
  }

  /** An instruction fetch at 0x1011 hits an execute watchpoint (when the
      Execute enumerator is 8): the cell is keyed by the thread id 7, not by
      the instruction address. */
  lemma ExecuteHitKeyedByThread(kinds: KindCodes)
    requires kinds.execute == ExecDiscriminator
    ensures var f := Fault(GuardPageViolation, 2, ExecDiscriminator, 0x1011, 0x1011, 7, []);
            var o := Dispatch(kinds, [Watched(kinds.execute, None)], Empty, f, false, false);
            && o.verdict == ContinueExecution && o.trap
            && o.tables.ledger == map[0x1010 := map[7 := Info(1, 7, [])]]
  {
  }

  /** A fault at 0x5000, outside every region, is not the dispatcher's. */
  lemma OutsideEveryRegion(kinds: KindCodes, kind: nat)
    ensures var f := Fault(AccessViolation, 2, 1, 0x5000, 0x4000, 7, []);
            Dispatch(kinds, [Watched(kind, None)], Empty, f, false, false) == Outcome(ExecuteHandler, false, Empty)
  {
  }

  /** A fault with one parameter, or a zero faulting address, is not the
      dispatcher's, even inside a region. */
  lemma MalformedFaults(kinds: KindCodes, kind: nat)
    ensures Dispatch(kinds, [Watched(kind, None)], Empty, Fault(GuardPageViolation, 1, 1, 0x1012, 0x4000, 7, []), false, false)
            == Outcome(ExecuteHandler, false, Empty)
    ensures Dispatch(kinds, [Watched(kind, None)], Empty, Fault(GuardPageViolation, 2, 1, 0, 0x1012, 7, []), false, false)
            == Outcome(ExecuteHandler, false, Empty)
  {
  }

  /** A write hit on a tracing watchpoint restores protection at once without
      trapping; the thread's next fault, here a breakpoint exception, goes to
      the tracer, which closes the sequence. */
  lemma TracingThenUnrelatedFault(kinds: KindCodes, write: nat)
    requires write != ExecDiscriminator
    ensures var r := Watched(write, Some(42));
            var f := Fault(GuardPageViolation, 2, write, 0x1012, 0x4000, 7, []);
            var o1 := Dispatch(kinds, [r], Empty, f, false, true);
            var g := Fault(0x8000_0003, 0, 0, 0, 0x4002, 7, []);
            var o2 := Dispatch(kinds, [r], o1.tables, g, false, false);
            && o1 == Outcome(ContinueExecution, false, Tables(map[7 := Step(Base, Trigger(0x10, 4, write, Some(42)))], map[], [r]))
            && o2 == Outcome(ContinueExecution, false, Tables(map[], map[], [r]))
  {
  }

  /** Thread 7 took a write hit at 0x1012 and has not single-stepped yet. A
      write at 0x2002, in a second region, is classified afresh: the entry now
      names the second region, the trap flag is set again, and the first
      region's protection is never restored by this thread. */
  lemma PendingEntryOverwritten(kinds: KindCodes, write: nat)
    requires write != ExecDiscriminator && write != kinds.execute
    ensures var second := Region(0x2000, 0x100, [Trigger(0, 4, write, None)]);
            var t := Tables(map[7 := Step(Base, Trigger(0x10, 4, write, None))], map[], []);
            var f := Fault(GuardPageViolation, 2, write, 0x2002, 0x4000, 7, []);
            var o := Dispatch(kinds, [Watched(write, None), second], t, f, false, false);
            && o.verdict == ContinueExecution && o.trap
            && o.tables.handling == map[7 := Step(0x2000, Trigger(0, 4, write, None))]
            && o.tables.handling != t.handling
            && o.tables.restores == []
  {
    var second := Region(0x2000, 0x100, [Trigger(0, 4, write, None)]);
    var t := Tables(map[7 := Step(Base, Trigger(0x10, 4, write, None))], map[], []);
    var f := Fault(GuardPageViolation, 2, write, 0x2002, 0x4000, 7, []);
    assert Continuation([Watched(write, None), second], t, f, false, false) == Resume(false, t);
    var regions := [Watched(write, None), second];
    assert !InRange(regions[0], 0x2002) && InRange(regions[1], 0x2002);
    assert RegionAt(regions, 0x2002) == Some(1);
  }

  /** Two regions share the base 0x1000: a small one of 0x10 bytes, listed
      first, and the region of 0x100 bytes. A fault at 0x1020 hits the second;
      its single-step fault restores the protection of the first region found
      by base, which is the small one. */
  lemma SharedBaseRestoresFirstRegion(kinds: KindCodes)
    ensures var small := Region(Base, 0x10, []);
            var large := Region(Base, 0x100, []);
            var f := Fault(GuardPageViolation, 2, 1, 0x1020, 0x4000, 7, []);
            var o1 := Dispatch(kinds, [small, large], Empty, f, false, false);
            var g := Fault(SingleStep, 0, 0, 0, 0x4002, 7, []);
            var o2 := Dispatch(kinds, [small, large], o1.tables, g, false, false);
            && o1 == Outcome(ContinueExecution, true, Tables(map[7 := Step(Base, EmptyTrigger)], map[], []))
            && o2 == Outcome(ContinueExecution, false, Tables(map[], map[], [small]))
  {
    var small := Region(Base, 0x10, []);
    var large := Region(Base, 0x100, []);
    var regions := [small, large];
    assert !InRange(regions[0], 0x1020) && InRange(regions[1], 0x1020);
    assert RegionAt(regions, 0x1020) == Some(1);
    FirstIndexUnique(regions, WithBase(Base), 0);
  }
}
