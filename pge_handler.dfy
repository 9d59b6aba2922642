/** The page-guard exception dispatcher of VExDebugger/PGEBkp/PGEHandler.cpp:
    the continuation path `IsThreadInHandling` and the entry point
    `PGEMgr::CheckPageGuardExceptions`. Each is first given as a function on
    the dispatcher's tables, which the lemmas reason about, and then as a method
    of `PageGuardManager` that updates the tables in place and is proved to
    agree with the function. */
module PGEHandler {
  import opened Search
  import opened PageGuard

  /** The state the dispatcher mutates: the per-thread handling table, the hit
      ledger, and the log of `RestorePageGuardProtection` calls, one entry per
      call naming the region whose protection was restored. */
  datatype Tables = Tables(handling: map<ThreadId, Step>, ledger: Ledger, restores: seq<Region>)

  /** What `IsThreadInHandling` answers, with the tables it leaves. */
  datatype Resume = Resume(handled: bool, tables: Tables)

  /** What the handler returns, whether it set the trap flag in the faulting
      thread's context, and the tables it leaves. */
  datatype Outcome = Outcome(verdict: Disposition, trap: bool, tables: Tables)

  /** Only `tid`'s handling entry may differ between `before` and `after`. */
  ghost predicate OthersUntouched(before: map<ThreadId, Step>, after: map<ThreadId, Step>, tid: ThreadId)
  {
    && (forall id :: id != tid && id in before ==> id in after && after[id] == before[id])
    && (forall id :: id != tid && id in after ==> id in before)
  }

  /** `IsThreadInHandling`: resolve the faulting thread's pending entry, if it
      has one. `swResolved` is the answer of the software-breakpoint resolver
      and `managerContinues` the answer of the tracer's `ManagerCall`. */
  function Continuation(regions: seq<Region>, t: Tables, f: Fault, swResolved: bool, managerContinues: bool): (r: Resume)
    // falling through leaves everything as it was
    ensures !r.handled ==> r.tables == t
    // the ledger is never touched, other threads' entries are never touched,
    // and the thread's own entry is at most erased
    ensures r.tables.ledger == t.ledger
    ensures OthersUntouched(t.handling, r.tables.handling, f.tid)
    ensures f.tid in r.tables.handling ==> f.tid in t.handling && r.tables.handling[f.tid] == t.handling[f.tid]
    ensures swResolved ==> r == Resume(true, t)
    ensures !swResolved && f.tid !in t.handling ==> r == Resume(false, t)
    // a plain entry is closed only by a single-step fault, with its region
    // still registered; closing it restores the protection of the first
    // region with the entry's base
    ensures !swResolved && f.tid in t.handling && !t.handling[f.tid].trigger.IsTracing() ==>
      && (r.handled <==> f.code == SingleStep && Registered(regions, t.handling[f.tid].allocBase))
      && (r.handled ==> r.tables == Tables(t.handling - {f.tid}, t.ledger,
                                           t.restores + [regions[FirstIndex(regions, WithBase(t.handling[f.tid].allocBase))]]))
    // a tracing entry is handed to the tracer whatever the exception code; the
    // entry survives exactly when the tracer asks to continue
    ensures !swResolved && f.tid in t.handling && t.handling[f.tid].trigger.IsTracing() ==>
      && (r.handled <==> Registered(regions, t.handling[f.tid].allocBase))
      && (r.handled ==> r.tables.restores == t.restores && (f.tid in r.tables.handling <==> managerContinues))
  {
    if swResolved then Resume(true, t)
    else if f.tid !in t.handling then Resume(false, t)
    else
      var step := t.handling[f.tid];
      var p := WithBase(step.allocBase);
      FirstIndexFound(regions, p);
      if step.trigger.IsTracing() then
        var k := FirstIndex(regions, p);
        if k == |regions| then Resume(false, t)
        else if managerContinues then Resume(true, t)
        else Resume(true, t.(handling := t.handling - {f.tid}))
      else if f.code != SingleStep then Resume(false, t)
      else
        var k := FirstIndex(regions, p);
        if k == |regions| then Resume(false, t)
        else Resume(true, t.(handling := t.handling - {f.tid}, restores := t.restores + [regions[k]]))
  }

  /** The fresh classification path of `CheckPageGuardExceptions`, run when the
      thread has no continuation to resolve. */
  function Classify(kinds: KindCodes, regions: seq<Region>, t: Tables, f: Fault): (r: Outcome)
    // the fault is claimed exactly when it is a well-formed guard-page or
    // access violation whose probe address lies in some region
    ensures r.verdict == ContinueExecution <==>
      IsAccessFault(f) && WellFormed(f) && exists k :: 0 <= k < |regions| && InRange(regions[k], ProbeAddress(f))
    // a fault that is not claimed changes nothing and sets no trap flag
    ensures r.verdict == ExecuteHandler ==> r == Outcome(ExecuteHandler, false, t)
    // a claimed fault is handled by the first region containing its probe
    ensures r.verdict == ContinueExecution ==>
      r == EnterRegion(kinds, regions[RegionAt(regions, ProbeAddress(f)).value], t, f)
  {
    if !IsAccessFault(f) then Outcome(ExecuteHandler, false, t)
    else if !WellFormed(f) then Outcome(ExecuteHandler, false, t)
    else
      match RegionAt(regions, ProbeAddress(f))
      case None => Outcome(ExecuteHandler, false, t)
      case Some(k) => EnterRegion(kinds, regions[k], t, f)
  }

  /** Lines 142-212 of `CheckPageGuardExceptions`: the fault hit region `pge`. */
  function EnterRegion(kinds: KindCodes, pge: Region, t: Tables, f: Fault): (r: Outcome)
    ensures r.verdict == ContinueExecution
    ensures
      var m := MatchedTrigger(kinds, pge, ProbeAddress(f), f.info0);
      var tracing := m.Some? && m.value.IsTracing();
      // the thread's entry is replaced, whatever it was
      && r.tables.handling == t.handling[f.tid := Step(pge.allocBase, if m.Some? then m.value else EmptyTrigger)]
      // a tracing trigger restores protection at once; everything else traps
      && r.trap == !tracing
      && r.tables.restores == (if tracing then t.restores + [pge] else t.restores)
      // only a passive match records a hit, in exactly one ledger cell
      && r.tables.ledger == (if m.Some? && !tracing
                             then Upsert(t.ledger, pge.allocBase + m.value.offset, LedgerKey(kinds, m.value, f), f.tid, f.ctx)
                             else t.ledger)
  {
    var current := ProbeAddress(f);
    var triggered := MatchedTrigger(kinds, pge, current, f.info0);
    var setTrigger := if triggered.Some? then triggered.value else EmptyTrigger;
    var ledger :=
      if triggered.Some? && !triggered.value.IsTracing()
      then Upsert(t.ledger, pge.allocBase + triggered.value.offset, LedgerKey(kinds, triggered.value, f), f.tid, f.ctx)
      else t.ledger;
    var handling := t.handling[f.tid := Step(pge.allocBase, setTrigger)];
    if setTrigger.IsTracing() then
      Outcome(ContinueExecution, false, Tables(handling, ledger, t.restores + [pge]))
    else
      Outcome(ContinueExecution, true, Tables(handling, ledger, t.restores))
  }

  /** `PGEMgr::CheckPageGuardExceptions`: the continuation path first; when it
      falls through, the fresh classification path. */
  function Dispatch(kinds: KindCodes, regions: seq<Region>, t: Tables, f: Fault,
                    swResolved: bool, managerContinues: bool): (r: Outcome)
    ensures r.verdict == ExecuteHandler ==> r.tables == t && !r.trap
    ensures r.trap ==> r.verdict == ContinueExecution
    ensures OthersUntouched(t.handling, r.tables.handling, f.tid)
    ensures LedgerGrows(t.ledger, r.tables.ledger)
    ensures |t.restores| <= |r.tables.restores| <= |t.restores| + 1
    ensures r.tables.restores[..|t.restores|] == t.restores
  {
    var c := Continuation(regions, t, f, swResolved, managerContinues);
    if c.handled then Outcome(ContinueExecution, false, c.tables)
    else
      Classify(kinds, regions, c.tables, f)
  }

  /** One fault delivered to the handler, with the answers of the two foreign
      collaborators for it. */
  datatype Event = Event(fault: Fault, swResolved: bool, managerContinues: bool)

  /** The tables after a sequence of faults, handled one after another. */
  function Run(kinds: KindCodes, regions: seq<Region>, t: Tables, events: seq<Event>): Tables
    decreases |events|
  {
    if events == [] then t
    else
      var e := events[0];
      Run(kinds, regions, Dispatch(kinds, regions, t, e.fault, e.swResolved, e.managerContinues).tables, events[1..])
  }

  /** Every pending entry names a region of the registry. */
  ghost predicate EntriesRegistered(regions: seq<Region>, handling: map<ThreadId, Step>)
  {
    forall id :: id in handling ==> Registered(regions, handling[id].allocBase)
  }

  /** The dispatcher keeps every pending entry pointing at a registered region. */
  lemma DispatchKeepsEntriesRegistered(kinds: KindCodes, regions: seq<Region>, t: Tables, f: Fault,
                                       swResolved: bool, managerContinues: bool)
    requires EntriesRegistered(regions, t.handling)
    ensures EntriesRegistered(regions, Dispatch(kinds, regions, t, f, swResolved, managerContinues).tables.handling)
  {
  }

  /** With every pending entry registered, a thread's pending plain entry is
      always closed by its single-step fault, and a pending tracing entry is
      always handed to the tracer: the stale-region fall-through cannot happen. */
  lemma PendingEntryAlwaysResolved(regions: seq<Region>, t: Tables, f: Fault, managerContinues: bool)
    requires EntriesRegistered(regions, t.handling)
    requires f.tid in t.handling
    requires t.handling[f.tid].trigger.IsTracing() || f.code == SingleStep
    ensures Continuation(regions, t, f, false, managerContinues).handled
  {
  }

  /** No two regions of the list share an allocation base, so the lookup by
      base of the continuation path finds the very region the fresh path hit. */
  predicate DistinctBases(regions: seq<Region>)
  {
    forall i, j :: 0 <= i < j < |regions| ==> regions[i].allocBase != regions[j].allocBase
  }

  /** Re-arming round trip: a thread with nothing pending takes a passive hit
      (or a region hit with no matching trigger) and then its single-step
      fault. The first fault sets the trap flag; the second closes the entry
      and restores, once, the protection of the first region with the hit
      region's base, which is the hit region itself when bases are distinct;
      afterwards the handling table is as it was before the first fault. */
  lemma PassiveHitThenStepRestores(kinds: KindCodes, regions: seq<Region>, t: Tables, f: Fault, g: Fault,
                                   mc1: bool, mc2: bool)
    requires f.tid !in t.handling
    requires IsAccessFault(f) && WellFormed(f)
    requires RegionAt(regions, ProbeAddress(f)).Some?
    requires var m := MatchedTrigger(kinds, regions[RegionAt(regions, ProbeAddress(f)).value], ProbeAddress(f), f.info0);
             m.None? || !m.value.IsTracing()
    requires g.tid == f.tid && g.code == SingleStep
    ensures var hit := regions[RegionAt(regions, ProbeAddress(f)).value];
            var o1 := Dispatch(kinds, regions, t, f, false, mc1);
            var o2 := Dispatch(kinds, regions, o1.tables, g, false, mc2);
            && o1.verdict == ContinueExecution && o1.trap
            && o2.verdict == ContinueExecution && !o2.trap
            && o2.tables.handling == t.handling
            && o2.tables.restores == t.restores + [regions[FirstIndex(regions, WithBase(hit.allocBase))]]
            && (DistinctBases(regions) ==> o2.tables.restores == t.restores + [hit])
            && o2.tables.ledger == o1.tables.ledger
  {
    var k := RegionAt(regions, ProbeAddress(f)).value;
    if DistinctBases(regions) {
      FirstIndexUnique(regions, WithBase(regions[k].allocBase), k);
    }
  }

  /** A tracing hit hands the thread to the tracer: the first fault restores
      protection without trapping and records no hit; the thread's next fault,
      of any kind, goes to the tracer instead of being classified again, and
      the entry survives exactly when the tracer asks to continue. */
  lemma TracingHitHandsOverToTracer(kinds: KindCodes, regions: seq<Region>, t: Tables, f: Fault, g: Fault,
                                    mc1: bool, mc2: bool)
    requires f.tid !in t.handling
    requires IsAccessFault(f) && WellFormed(f)
    requires RegionAt(regions, ProbeAddress(f)).Some?
    requires var m := MatchedTrigger(kinds, regions[RegionAt(regions, ProbeAddress(f)).value], ProbeAddress(f), f.info0);
             m.Some? && m.value.IsTracing()
    requires g.tid == f.tid
    ensures var hit := regions[RegionAt(regions, ProbeAddress(f)).value];
            var o1 := Dispatch(kinds, regions, t, f, false, mc1);
            var o2 := Dispatch(kinds, regions, o1.tables, g, false, mc2);
            && o1.verdict == ContinueExecution && !o1.trap
            && o1.tables.ledger == t.ledger
            && o1.tables.restores == t.restores + [hit]
            && o2.verdict == ContinueExecution && !o2.trap
            && o2.tables.ledger == t.ledger
            && o2.tables.restores == o1.tables.restores
            && (f.tid in o2.tables.handling <==> mc2)
  {
  }

  /** A thread with nothing pending whose fault is not a guard-page or access
      violation, or has the wrong parameter shape, or probes an address outside
      every region, is left to other handlers with nothing changed. */
  lemma ForeignFaultIgnored(kinds: KindCodes, regions: seq<Region>, t: Tables, f: Fault, managerContinues: bool)
    requires f.tid !in t.handling
    requires !IsAccessFault(f) || !WellFormed(f) || forall k :: 0 <= k < |regions| ==> !InRange(regions[k], ProbeAddress(f))
    ensures Dispatch(kinds, regions, t, f, false, managerContinues) == Outcome(ExecuteHandler, false, t)
  {
  }

  /** A passive hit by a thread with nothing pending changes exactly one
      ledger cell: the cell of the watched address `allocBase + offset`, keyed
      by the faulting instruction for a non-Execute trigger and by the thread
      for an Execute trigger. Its count goes up by one from its previous value
      (0 if it did not exist) and it records the thread and context; the
      contract of `Upsert` spells out that every other cell is kept. */
  lemma PassiveHitRecordsOneCell(kinds: KindCodes, regions: seq<Region>, t: Tables, f: Fault, managerContinues: bool,
                                  k: nat, trig: Trigger)
    requires f.tid !in t.handling
    requires IsAccessFault(f) && WellFormed(f)
    requires RegionAt(regions, ProbeAddress(f)) == Some(k)
    requires MatchedTrigger(kinds, regions[k], ProbeAddress(f), f.info0) == Some(trig)
    requires !trig.IsTracing()
    ensures
      var addr := regions[k].allocBase + trig.offset;
      var key := if trig.kind != kinds.execute then f.excAddr else f.tid;
      var o := Dispatch(kinds, regions, t, f, false, managerContinues);
      && o.tables.ledger == Upsert(t.ledger, addr, key, f.tid, f.ctx)
      && o.tables.ledger[addr][key].count == CountAt(t.ledger, addr, key) + 1
  {
  }

  /** Faults never lower a hit count nor delete a ledger cell, over any run. */
  lemma {:induction false} RunLedgerGrows(kinds: KindCodes, regions: seq<Region>, t: Tables, events: seq<Event>)
    ensures LedgerGrows(t.ledger, Run(kinds, regions, t, events).ledger)
    decreases |events|
  {
    if events != [] {
      var e := events[0];
      var t1 := Dispatch(kinds, regions, t, e.fault, e.swResolved, e.managerContinues).tables;
      RunLedgerGrows(kinds, regions, t1, events[1..]);
      LedgerGrowsTransitive(t.ledger, t1.ledger, Run(kinds, regions, t1, events[1..]).ledger);
    }
  }

  /** Over any run, every pending entry keeps naming a listed region. */
  lemma {:induction false} RunKeepsEntriesRegistered(kinds: KindCodes, regions: seq<Region>, t: Tables, events: seq<Event>)
    requires EntriesRegistered(regions, t.handling)
    ensures EntriesRegistered(regions, Run(kinds, regions, t, events).handling)
    decreases |events|
  {
    if events != [] {
      var e := events[0];
      DispatchKeepsEntriesRegistered(kinds, regions, t, e.fault, e.swResolved, e.managerContinues);
      var t1 := Dispatch(kinds, regions, t, e.fault, e.swResolved, e.managerContinues).tables;
      RunKeepsEntriesRegistered(kinds, regions, t1, events[1..]);
    }
  }

  /** A thread that raises no fault during a run keeps its handling entry, or
      its absence, unchanged. */
  lemma {:induction false} RunLeavesQuietThreadsAlone(kinds: KindCodes, regions: seq<Region>, t: Tables,
                                                      events: seq<Event>, tid: ThreadId)
    requires forall i :: 0 <= i < |events| ==> events[i].fault.tid != tid
    ensures tid in Run(kinds, regions, t, events).handling <==> tid in t.handling
    ensures tid in t.handling ==> Run(kinds, regions, t, events).handling[tid] == t.handling[tid]
    decreases |events|
  {
    if events != [] {
      var e := events[0];
      var t1 := Dispatch(kinds, regions, t, e.fault, e.swResolved, e.managerContinues).tables;
      assert events[0].fault.tid != tid;
      RunLeavesQuietThreadsAlone(kinds, regions, t1, events[1..], tid);
    }
  }

  /** The continuation path does not shield a pending entry from the fresh
      path: when a thread with a pending plain entry raises any fault other
      than the single step, `CheckPageGuardExceptions` answers exactly as the
      fresh classification does, which replaces the entry whenever it claims
      the fault. */
  lemma PendingEntryCanBeReclassified(kinds: KindCodes, regions: seq<Region>, t: Tables, f: Fault,
                                      managerContinues: bool)
    requires f.tid in t.handling && !t.handling[f.tid].trigger.IsTracing()
    requires f.code != SingleStep
    ensures !Continuation(regions, t, f, false, managerContinues).handled
    ensures Dispatch(kinds, regions, t, f, false, managerContinues) == Classify(kinds, regions, t, f)
  {
  }

  /** The dispatcher's global tables. `regions` is `PGEMgr::GetPageExceptionsList()`,
      `handling` is `PGEMgr::GetThreadHandlingList()`, `ledger` is
      `VExInternal::GetAssocExceptionList()`, and `restores` logs the calls to
      `RestorePageGuardProtection`. The dispatcher never changes `regions`. */
  class PageGuardManager {
    var regions: seq<Region>
    var handling: map<ThreadId, Step>
    var ledger: Ledger
    ghost var restores: seq<Region>
    const kinds: KindCodes

    ghost function State(): Tables
      reads this
    {
      Tables(handling, ledger, restores)
    }

    /** Every pending entry points at a registered region. */
    ghost predicate Valid()
      reads this
    {
      EntriesRegistered(regions, handling)
    }

    constructor (kinds: KindCodes, regions: seq<Region>)
      ensures Valid()
      ensures this.kinds == kinds && this.regions == regions
      ensures handling == map[] && ledger == map[] && restores == []
    {
      this.kinds := kinds;
      this.regions := regions;
      handling := map[];
      ledger := map[];
      restores := [];
    }

    /** `IsThreadInHandling`. */
    method IsThreadInHandling(f: Fault, swResolved: bool, managerContinues: bool) returns (handled: bool)
      modifies this`handling, this`restores
      ensures Resume(handled, State()) == Continuation(regions, old(State()), f, swResolved, managerContinues)
    {
      if swResolved {
        return true;
      }
      if f.tid !in handling {
        return false;
      }
      var step := handling[f.tid];
      var isSingleStep := f.code == SingleStep;
      var isTracing := step.trigger.IsTracing();
      if isTracing {
        var k := FindIf(regions, WithBase(step.allocBase));
        if k == |regions| {
          return false;
        }
        var continues := managerContinues;  // PGETracer::ManagerCall
        if !continues {
          handling := handling - {f.tid};
        }
        return true;
      }
      if !isSingleStep {
        return false;
      }
      var k := FindIf(regions, WithBase(step.allocBase));
      if k == |regions| {
        return false;
      }
      handling := handling - {f.tid};
      restores := restores + [regions[k]];  // RestorePageGuardProtection
      return true;
    }

    /** The in-place ledger update of a passive hit:
        `GetAssocExceptionList()[address][key]` is created value-initialised
        if absent, then its count is incremented and its thread and context
        overwritten. */
    method RecordHit(address: Addr, key: Key, tid: ThreadId, ctx: Context)
      modifies this`ledger
      ensures ledger == Upsert(old(ledger), address, key, tid, ctx)
    {
      var cells := if address in ledger then ledger[address] else map[];
      var info := if key in cells then cells[key] else Info(0, 0, []);
      info := info.(count := info.count + 1);
      info := info.(threadId := tid);
      info := info.(ctx := ctx);
      ledger := ledger[address := cells[key := info]];
    }

    /** Lines 144-192 of `CheckPageGuardExceptions`: find the first trigger of
        the region that matches the access, record a passive hit in the
        ledger, and answer the trigger to store in the thread's entry. */
    method MatchTrigger(f: Fault, pge: Region, current: Addr) returns (setTrigger: Trigger)
      modifies this`ledger
      ensures var m := MatchedTrigger(kinds, pge, current, f.info0);
        && setTrigger == (if m.Some? then m.value else EmptyTrigger)
        && ledger == (if m.Some? && !m.value.IsTracing()
                      then Upsert(old(ledger), pge.allocBase + m.value.offset, LedgerKey(kinds, m.value, f), f.tid, f.ctx)
                      else old(ledger))
    {
      var j := FindIf(pge.triggers, Matching(kinds, pge.allocBase, current, f.info0));
      assert MatchedTrigger(kinds, pge, current, f.info0) == if j < |pge.triggers| then Some(pge.triggers[j]) else None;
      setTrigger := EmptyTrigger;
      if j < |pge.triggers| {
        var trigger := pge.triggers[j];
        var address := pge.allocBase + trigger.offset;
        if !trigger.IsTracing() {
          var key := if trigger.kind != kinds.execute then f.excAddr else f.tid;
          RecordHit(address, key, f.tid, f.ctx);
        }
        setTrigger := trigger;
      }
    }

    /** `PGEMgr::CheckPageGuardExceptions`. `trap` tells whether the trap flag
        was set in the faulting thread's context. */
    method CheckPageGuardExceptions(f: Fault, swResolved: bool, managerContinues: bool)
      returns (verdict: Disposition, trap: bool)
      modifies this`handling, this`ledger, this`restores
      ensures old(Valid()) ==> Valid()
      ensures Outcome(verdict, trap, State()) == Dispatch(kinds, regions, old(State()), f, swResolved, managerContinues)
    {
      if Valid() {
        DispatchKeepsEntriesRegistered(kinds, regions, State(), f, swResolved, managerContinues);
      }
      var handled := IsThreadInHandling(f, swResolved, managerContinues);
      if handled {
        return ContinueExecution, false;
      }
      verdict, trap := ClassifyFault(f);
    }

    /** Lines 96-212 of `CheckPageGuardExceptions`: the fresh classification of
        a fault the continuation path did not take. */
    method ClassifyFault(f: Fault) returns (verdict: Disposition, trap: bool)
      modifies this`handling, this`ledger, this`restores
      ensures Outcome(verdict, trap, State()) == Classify(kinds, regions, old(State()), f)
    {
      ghost var t := State();
      if f.code != GuardPageViolation && f.code != AccessViolation {
        assert Classify(kinds, regions, t, f) == Outcome(ExecuteHandler, false, t);
        return ExecuteHandler, false;
      }
      if f.numParams != 2 || f.info1 == 0 {
        assert Classify(kinds, regions, t, f) == Outcome(ExecuteHandler, false, t);
        return ExecuteHandler, false;
      }
      var infoTrigger := f.info0;
      var infoAddress := f.info1;
      var execInstruction := infoTrigger == ExecDiscriminator;
      var current := if execInstruction then f.excAddr else infoAddress;
      var k := FindIf(regions, Containing(current));
      if k == |regions| {
        assert RegionAt(regions, ProbeAddress(f)) == None;
        assert Classify(kinds, regions, t, f) == Outcome(ExecuteHandler, false, t);
        return ExecuteHandler, false;
      }
      assert current == ProbeAddress(f) && RegionAt(regions, current) == Some(k);
      verdict, trap := EnterRegionInPlace(f, regions[k], current);
    }

    /** Lines 140-212 of `CheckPageGuardExceptions`: the fault probed `current`
        inside region `pge`. Record the hit, open the thread's entry, then
        either restore protection (tracing trigger) or set the trap flag. */
    method EnterRegionInPlace(f: Fault, pge: Region, current: Addr) returns (verdict: Disposition, trap: bool)
      requires current == ProbeAddress(f)
      modifies this`handling, this`ledger, this`restores
      ensures Outcome(verdict, trap, State()) == EnterRegion(kinds, pge, old(State()), f)
    {
      var setTrigger := MatchTrigger(f, pge, current);
      handling := handling[f.tid := Step(pge.allocBase, setTrigger)];
      if setTrigger.IsTracing() {
        restores := restores + [pge];  // RestorePageGuardProtection
        return ContinueExecution, false;
      }
      return ContinueExecution, true;  // SET_TRAP_FLAG
    }
  }
}
