# Page-guard watchpoint dispatcher

A Dafny model of the page-guard exception handler of VExDebugger
(`VExDebugger/PGEBkp/PGEHandler.cpp`). VExDebugger watches sub-ranges of
guarded allocations for reads, writes and instruction fetches. The handler
turns the resulting guard-page faults into watchpoint hits. For each fault it
either re-arms the guard after one single step or hands the thread to a
tracer.

The handler works over three global tables:

- the **region list** (`PGEMgr::GetPageExceptionsList()`): guarded allocations,
  each with an ordered list of triggers (offset, size, type, optional callback);
- the **per-thread handling table** (`PGEMgr::GetThreadHandlingList()`): for a
  thread between a fault and its continuation, the region base and the trigger
  that matched;
- the **hit ledger** (`VExInternal::GetAssocExceptionList()`): watched address →
  key → {count, last thread, last context}.

It has two entry points:

- `IsThreadInHandling` is the continuation path. It closes a plain entry on
  the single-step fault and restores protection, or hands a tracing entry to
  `PGETracer::ManagerCall`.
- `PGEMgr::CheckPageGuardExceptions` tries the continuation first. If that
  falls through, it classifies the fault afresh:
  - filter on the exception code and parameter shape;
  - pick the probe address;
  - find the first region and the first trigger that match;
  - record a passive hit in the ledger;
  - open the thread's entry;
  - then either restore protection (tracing trigger) or set the trap flag.

Files:

- `search.dfy` (module `Search`): `std::find_if`, as the specification
  function `FirstIndex` and the loop `FindIf` proved to compute it.
- `page_guard.dfy` (module `PageGuard`): the data model, the `find_if`
  predicates, the first-match lookups `RegionAt` and `MatchedTrigger`, and the
  ledger upsert `Upsert`.
- `pge_handler.dfy` (module `PGEHandler`): the handler as functions on the
  tables (`Continuation`, `Classify`, `EnterRegion`, `Dispatch`), lemmas about
  single faults and about runs of faults, and the class `PageGuardManager`.
  The class holds the tables as fields. Its methods update those fields in
  place, following the source statement by statement. Each method is proved
  to leave exactly the state the matching function describes.
- `scenarios.dfy` (module `PGEScenarios`): concrete fault sequences against
  one region.

Points where the code behaves in a way a reader might not expect; the model
follows the code:

- **A pending entry does not block fresh classification.** Whenever
  `IsThreadInHandling` returns false, control falls through at line 93 to
  fresh classification, and line 194 overwrites the thread's entry if the
  code claims the fault. `IsThreadInHandling` returns false for a thread with
  a pending entry in three cases:
  - a plain entry meets a fault other than the single step;
  - the entry's region is no longer in the list;
  - the tracing entry's region is no longer in the list.

  In the first case the code may claim the fault and replace the entry, and
  the region of the old entry then never gets its protection restored by
  that thread. `PGEHandler.PendingEntryCanBeReclassified` states this for all
  inputs and `PGEScenarios.PendingEntryOverwritten` shows an entry replaced
  by one naming another region.
- **Regions are found by base on the way back.** The fresh path hits the
  first region containing the probe (lines 124-132), but the single-step
  continuation restores the first region whose base equals the entry's base
  (lines 71-78, 86). When two regions share a base these can differ;
  `PGEScenarios.SharedBaseRestoresFirstRegion` shows it.
- **Execute is tested two ways.** The ReadWrite test at line 154 compares the
  access discriminator with the `PageGuardTriggerType::Execute` enumerator.
  The probe-address choice at line 120 compares it with the literal 8. The
  model keeps the two apart (`KindCodes.execute` and `ExecDiscriminator`) and
  never assumes they are equal.
- **Both paths restore protection the same way.** The tracing hit (line 203)
  and the single-step continuation (line 86) call the same
  `RestorePageGuardProtection`. Both are recorded as the same event in the
  `restores` log, which names the region passed to the call.

## Model

| member | source | states |
|---|---|---|
| `Search.FirstIndex` | VExDebugger/PGEBkp/PGEHandler.cpp:124-132 | the index `find_if` stops at: every earlier element fails the predicate, and the element at the index (unless it is `end()`) satisfies it |
| `Search.FindIf` | VExDebugger/PGEBkp/PGEHandler.cpp:44-51 | the front-to-back scan returns exactly the first-match index |
| `PageGuard.RegionAt` | VExDebugger/PGEBkp/PGEHandler.cpp:124-138 | a region is found exactly when some region's `InRange` holds for the probe; the one found is the first in list order that contains it |
| `PageGuard.MatchedTrigger` | VExDebugger/PGEBkp/PGEHandler.cpp:144-157 | no trigger exactly when none matches by range and type; otherwise the first trigger in registration order with `base+Offset <= a < base+Offset+Size` and (`info0 == Type` or Type is ReadWrite and `info0` is not Execute) |
| `PageGuard.ReadWriteNeverMatchesExecute` | VExDebugger/PGEBkp/PGEHandler.cpp:153-154 | a ReadWrite trigger never matches an access whose discriminator is the Execute enumerator |
| `PageGuard.OtherKindsMatchExactly` | VExDebugger/PGEBkp/PGEHandler.cpp:150-155 | a trigger that is not ReadWrite matches only an access of its own type inside its sub-range |
| `PageGuard.ProbeAddressChoice` | VExDebugger/PGEBkp/PGEHandler.cpp:116-122 | the probe is `ExceptionAddress` when `info0 == 8` and `ExceptionInformation[1]` otherwise |
| `PageGuard.Upsert` | VExDebugger/PGEBkp/PGEHandler.cpp:173-185 | one hit changes exactly one ledger cell: it is created if absent, its count becomes the old count (0 if new) plus one, and it stores the thread and context; every other address and key keeps its cell |
| `PageGuard.UpsertGrows` | VExDebugger/PGEBkp/PGEHandler.cpp:181 | an upsert removes no cell and lowers no count |
| `PGEHandler.Continuation` | VExDebugger/PGEBkp/PGEHandler.cpp:10-89 | falls through with nothing changed when the thread has no entry. A plain entry is closed only by a single-step fault with its region still listed: the entry is erased and that region's protection restored once. A tracing entry with its region listed is handled whatever the exception code, and survives exactly when `ManagerCall` answers true. The ledger and every other thread's entry are never touched |
| `PGEHandler.Classify` | VExDebugger/PGEBkp/PGEHandler.cpp:96-138 | the fault is claimed exactly when its code is guard page or access violation, it has exactly two parameters with a non-zero address, and its probe lies in some region. An unclaimed fault changes nothing and sets no trap flag. A claimed one is handled in the first region containing the probe |
| `PGEHandler.EnterRegion` | VExDebugger/PGEBkp/PGEHandler.cpp:159-212 | the thread's entry becomes {region base, matched trigger or empty trigger}, replacing any earlier one. A tracing trigger restores protection and sets no trap flag. Otherwise the trap flag is set and protection is not restored. Only a passive match touches the ledger, by one upsert at `AllocBase+Offset` keyed as at line 177 |
| `PGEHandler.Dispatch` | VExDebugger/PGEBkp/PGEHandler.cpp:91-94 | continuation first, then fresh classification. A not-mine answer changes nothing. A trap flag only comes with continue-execution. Only the faulting thread's entry can change. The ledger only grows. At most one protection restore is appended |
| `PGEHandler.ForeignFaultIgnored` | VExDebugger/PGEBkp/PGEHandler.cpp:104-138 | with no pending entry, a wrong exception code, a wrong parameter shape, or a probe outside every region gives `EXCEPTION_EXECUTE_HANDLER` with every table unchanged |
| `PGEHandler.PassiveHitRecordsOneCell` | VExDebugger/PGEBkp/PGEHandler.cpp:165-185 | a passive hit by a thread with nothing pending leaves the ledger equal to one `Upsert` of the cell `[AllocBase+Offset][k]`, where `k` is `ExceptionAddress` for a non-Execute trigger and the thread id for an Execute trigger (the trigger's type decides, not `info0`). So only that cell changes, and its count goes up by one from its previous value or 0 |
| `PGEHandler.PassiveHitThenStepRestores` | VExDebugger/PGEBkp/PGEHandler.cpp:66-88 | a passive hit (or a region hit with no trigger) sets the trap flag. The thread's following single-step fault erases the entry and restores, exactly once, the protection of the first region with the hit region's base; when no two regions share a base, that is the hit region itself. The handling table is then as before the hit and the ledger is not touched again |
| `PGEHandler.TracingHitHandsOverToTracer` | VExDebugger/PGEBkp/PGEHandler.cpp:40-64 | a tracing hit restores protection at once without a trap flag and without a ledger entry. The thread's next fault of any kind goes to the tracer, not to reclassification. The entry survives exactly when the tracer asks to continue |
| `PGEHandler.DispatchKeepsEntriesRegistered` | VExDebugger/PGEBkp/PGEHandler.cpp:194-199 | every entry the handler opens names the base of a listed region, so the invariant "every pending entry names a listed region" is preserved |
| `PGEHandler.PendingEntryAlwaysResolved` | VExDebugger/PGEBkp/PGEHandler.cpp:44-54 | under that invariant, the continuation path always claims a tracing entry's fault and a plain entry's single-step fault: the region-missing fall-through (lines 53-54 and 80-81) cannot happen while the region list is unchanged |
| `PGEHandler.PendingEntryCanBeReclassified` | VExDebugger/PGEBkp/PGEHandler.cpp:66-94 | for any thread with a pending plain entry and any fault other than the single step, the continuation path falls through and the handler's answer and tables are exactly those of fresh classification, which replaces the entry whenever it claims the fault |
| `PGEHandler.RunLedgerGrows` | VExDebugger/PGEBkp/PGEHandler.cpp:181 | over any sequence of faults, no ledger cell disappears and no count decreases |
| `PGEHandler.RunKeepsEntriesRegistered` | VExDebugger/PGEBkp/PGEHandler.cpp:194-199 | over any sequence of faults, every pending entry keeps naming the base of a listed region |
| `PGEHandler.RunLeavesQuietThreadsAlone` | VExDebugger/PGEBkp/PGEHandler.cpp:25-28 | a thread that raises no fault during a sequence of faults keeps its handling entry (or its absence) unchanged |
| `PGEHandler.PageGuardManager.IsThreadInHandling` | VExDebugger/PGEBkp/PGEHandler.cpp:10-89 | the in-place method answers and leaves the tables exactly as `Continuation` says, and changes only the handling table and the restore log |
| `PGEHandler.PageGuardManager.CheckPageGuardExceptions` | VExDebugger/PGEBkp/PGEHandler.cpp:91-94 | the in-place handler answers, sets the trap flag, and leaves the tables exactly as `Dispatch` says. It never changes the region list. It keeps every pending entry pointing at a listed region |
| `PGEHandler.PageGuardManager.ClassifyFault` | VExDebugger/PGEBkp/PGEHandler.cpp:96-138 | the in-place fresh path agrees with `Classify` |
| `PGEHandler.PageGuardManager.EnterRegionInPlace` | VExDebugger/PGEBkp/PGEHandler.cpp:140-212 | the in-place region handling agrees with `EnterRegion` |
| `PGEHandler.PageGuardManager.MatchTrigger` | VExDebugger/PGEBkp/PGEHandler.cpp:144-192 | the stored trigger is the first matching trigger or the empty trigger. The ledger is upserted exactly for a passive match and is otherwise untouched |
| `PGEHandler.PageGuardManager.RecordHit` | VExDebugger/PGEBkp/PGEHandler.cpp:173-185 | the `operator[]` / `++Count` / assignment sequence leaves the ledger equal to `Upsert` of the old ledger |
| `PGEScenarios.WriteHitKeyedByInstruction` | VExDebugger/PGEBkp/PGEHandler.cpp:171-185 | a write at 0x1012 on a write watchpoint at 0x1010 creates the cell (0x1010, faulting instruction) with count 1 and sets the trap flag |
| `PGEScenarios.ExecuteHitKeyedByThread` | VExDebugger/PGEBkp/PGEHandler.cpp:177 | an instruction fetch at 0x1011 on an execute watchpoint is keyed by the thread id, not the instruction address (assuming the Execute enumerator is 8) |
| `PGEScenarios.OutsideEveryRegion` | VExDebugger/PGEBkp/PGEHandler.cpp:134-138 | a fault at 0x5000, outside the only region, is not claimed |
| `PGEScenarios.MalformedFaults` | VExDebugger/PGEBkp/PGEHandler.cpp:110-113 | one parameter, or a zero faulting address, is not claimed even inside a region |
| `PGEScenarios.PendingEntryOverwritten` | VExDebugger/PGEBkp/PGEHandler.cpp:93-94 | a thread pending in one region that faults in a second region gets a new entry naming the second region, with the trap flag set again and no restore for the first region |
| `PGEScenarios.SharedBaseRestoresFirstRegion` | VExDebugger/PGEBkp/PGEHandler.cpp:71-86 | with two regions sharing a base, a hit in the second one is followed by a restore of the first one |
| `PGEScenarios.TracingThenUnrelatedFault` | VExDebugger/PGEBkp/PGEHandler.cpp:201-206 | a tracing hit restores protection without trapping, and the thread's next fault (a breakpoint) goes to the tracer, which closes the entry |

## Left out

- Win32 exception plumbing. `EXCEPTION_POINTERS` becomes the `Fault` record and
  `GetCurrentThreadId()` becomes its `tid` field. The return codes become
  `Disposition`. The `!ExceptionInformation` test at line 110 is dropped,
  because it checks an array member, which is never null.
- The software-breakpoint resolver `PGETracer::ResolverMultiplesSwBrkpt`
  (lines 16-23, compiled only with `USE_SWBREAKPOINT`) is foreign code. It
  becomes the boolean input `swResolved`. When it is true, the fault is
  handled and the model changes nothing.
- The internals of `PGETracer::ManagerCall` are foreign code. Its answer is
  the boolean input `managerContinues`. Anything it does besides answering is
  not modelled: changing protection, placing breakpoints, or editing the step
  it receives by reference.
- `RestorePageGuardProtection` (a `VirtualProtect` wrapper) has no body in
  this file. Each call is recorded in the ghost log `restores` as the region
  it is given. Real page protection state is not modelled.
- `PageGuardException::InRange` has no body in this file. It is modelled as the
  half-open range `[AllocBase, AllocBase + size)`.
- The numeric values of `PageGuardTriggerType` are declared in a header that is
  not part of this model. They are parameters (`KindCodes`).
- The register context is an uninterpreted copied value. `SET_TRAP_FLAG` is
  the `trap` result.
- Logging (`Config::i()->m_Logs`, `DisplayContextLogs`) is file I/O.
- Concurrency: the global tables are shared by all threads without locking. The
  model handles one sequential stream of faults, each tagged with its thread id.
- Integer widths are not modelled:
  - `AllocBase + Offset + Size` can wrap around in `uintptr_t`;
  - the hit count can overflow;
  - `Addr`, `ThreadId` and the count are unbounded naturals.
- `IsPG` (line 38) is computed and never used, so it is not modelled.
- A thread that ends while its entry is pending leaves that entry behind, in the
  code as in the model. Nothing cleans it up.
- Registering and removing regions and triggers happens outside this file. The
  dispatcher never changes the region list, and the class keeps it fixed.
