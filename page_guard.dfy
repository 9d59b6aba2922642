/** The tables the page-guard watchpoint dispatcher works on, and the pure
    pieces of VExDebugger/PGEBkp/PGEHandler.cpp: the `std::find_if` predicates,
    the probe-address choice and the hit-ledger upsert. */
module PageGuard {
  import opened Search

  /** A virtual address (`uintptr_t`). */
  type Addr = nat
  /** A Win32 thread identifier, as `GetCurrentThreadId` returns it. */
  type ThreadId = nat
  /** Second-level key of the hit ledger: an instruction address or a thread id. */
  type Key = nat
  /** Identity of a trace callback, i.e. a non-null function pointer. */
  type CallbackId = nat
  /** A saved register context (`CONTEXT`), copied as an uninterpreted value. */
  type Context = seq<int>

  datatype Option<+T> = None | Some(value: T)

  /** Win32 exception codes the dispatcher tests for. */
  const GuardPageViolation: nat := 0x8000_0001
  const SingleStep: nat := 0x8000_0004
  const AccessViolation: nat := 0xC000_0005

  /** The value of `ExceptionInformation[0]` the dispatcher treats as an
      instruction fetch (the literal 8 of the source). */
  const ExecDiscriminator: nat := 8

  /** What a vectored exception handler answers. */
  datatype Disposition = ExecuteHandler | ContinueExecution

  /** The numeric values of the `PageGuardTriggerType` enumerators that the
      dispatcher compares against. The enumeration is declared in a header that
      is not part of this model, so the values are kept as parameters. */
  datatype KindCodes = KindCodes(execute: nat, readWrite: nat)
  {
    /** Distinct enumerators have distinct values. */
    predicate Valid() { execute != readWrite }
  }

  /** A watchpoint inside a region: a sub-range given by an offset from the
      region base and a size, an access kind, and an optional trace callback. */
  datatype Trigger = Trigger(offset: nat, size: nat, kind: nat, callback: Option<CallbackId>)
  {
    /** A trigger with a callback hands its faults to the tracer. */
    predicate IsTracing() { callback.Some? }
  }

  /** The value-initialised trigger `{}` recorded when a region matched but
      none of its triggers did. */
  const EmptyTrigger := Trigger(0, 0, 0, None)

  /** A guarded allocation `[allocBase, allocBase + size)` with its triggers in
      registration order. */
  datatype Region = Region(allocBase: Addr, size: nat, triggers: seq<Trigger>)

  /** A thread's pending handling entry: the region it faulted in and the
      trigger that matched (or `EmptyTrigger`). */
  datatype Step = Step(allocBase: Addr, trigger: Trigger)

  /** A hit record: occurrences, last thread, last register context. */
  datatype Info = Info(count: nat, threadId: ThreadId, ctx: Context)

  /** Watched address, then instruction address or thread id, to hit record. */
  type Ledger = map<Addr, map<Key, Info>>

  /** The parts of `EXCEPTION_POINTERS` the dispatcher reads, plus the id of
      the faulting thread. */
  datatype Fault = Fault(
    code: nat,          // ExceptionCode
    numParams: nat,     // NumberParameters
    info0: nat,         // ExceptionInformation[0]: the access discriminator
    info1: nat,         // ExceptionInformation[1]: the faulting data address
    excAddr: Addr,      // ExceptionAddress: the faulting instruction
    tid: ThreadId,      // GetCurrentThreadId()
    ctx: Context)       // *ContextRecord

  /** `PageGuardException::InRange`: the half-open range of the allocation. */
  predicate InRange(r: Region, a: Addr)
  {
    r.allocBase <= a < r.allocBase + r.size
  }

  /** The region lookup predicate of the fresh path. */
  function Containing(a: Addr): Region -> bool
  {
    (r: Region) => InRange(r, a)
  }

  /** The region lookup predicate of the continuation path. */
  function WithBase(base: Addr): Region -> bool
  {
    (r: Region) => r.allocBase == base
  }

  /** The trigger lookup predicate: the probe lies in the trigger's sub-range,
      and the access discriminator equals the trigger's kind, or the trigger is
      ReadWrite and the discriminator is not the Execute enumerator. */
  predicate TriggerMatches(kinds: KindCodes, base: Addr, t: Trigger, a: Addr, access: nat)
  {
    && base + t.offset <= a < base + t.offset + t.size
    && (access == t.kind || (t.kind == kinds.readWrite && access != kinds.execute))
  }

  function Matching(kinds: KindCodes, base: Addr, a: Addr, access: nat): Trigger -> bool
  {
    (t: Trigger) => TriggerMatches(kinds, base, t, a, access)
  }

  /** Whether some region in the list has the given allocation base. */
  predicate Registered(regions: seq<Region>, base: Addr)
  {
    exists k :: 0 <= k < |regions| && regions[k].allocBase == base
  }

  /** A fault the fresh path looks at: a guard-page or access violation. */
  predicate IsAccessFault(f: Fault)
  {
    f.code == GuardPageViolation || f.code == AccessViolation
  }

  /** Exactly two parameters with a non-zero faulting address. */
  predicate WellFormed(f: Fault)
  {
    f.numParams == 2 && f.info1 != 0
  }

  /** The address looked up in the region list: the instruction address for an
      instruction fetch, the data address otherwise. */
  function ProbeAddress(f: Fault): Addr
  {
    if f.info0 == ExecDiscriminator then f.excAddr else f.info1
  }

  lemma ProbeAddressChoice(f: Fault)
    ensures ProbeAddress(f) == f.excAddr || ProbeAddress(f) == f.info1
    ensures f.info0 == ExecDiscriminator ==> ProbeAddress(f) == f.excAddr
    ensures f.info0 != ExecDiscriminator ==> ProbeAddress(f) == f.info1
  {
  }

  /** The first region, in list order, whose range contains `a`. */
  function RegionAt(regions: seq<Region>, a: Addr): (r: Option<nat>)
    ensures r.Some? <==> exists k :: 0 <= k < |regions| && InRange(regions[k], a)
    ensures r.Some? ==> r.value < |regions| && InRange(regions[r.value], a)
    ensures r.Some? ==> forall j :: 0 <= j < r.value ==> !InRange(regions[j], a)
  {
    var k := FirstIndex(regions, Containing(a));
    FirstIndexFound(regions, Containing(a));
    if k < |regions| then Some(k) else None
  }

  /** The first trigger of `region`, in registration order, that matches an
      access of discriminator `access` at `a`. */
  function MatchedTrigger(kinds: KindCodes, region: Region, a: Addr, access: nat): (m: Option<Trigger>)
    ensures m.None? <==> forall j :: 0 <= j < |region.triggers| ==>
      !TriggerMatches(kinds, region.allocBase, region.triggers[j], a, access)
    ensures m.Some? ==>
      exists j :: && 0 <= j < |region.triggers| && m.value == region.triggers[j]
                  && TriggerMatches(kinds, region.allocBase, region.triggers[j], a, access)
                  && (forall i :: 0 <= i < j ==> !TriggerMatches(kinds, region.allocBase, region.triggers[i], a, access))
  {
    var p := Matching(kinds, region.allocBase, a, access);
    var j := FirstIndex(region.triggers, p);
    FirstIndexFound(region.triggers, p);
    if j < |region.triggers| then Some(region.triggers[j]) else None
  }

  /** A ReadWrite trigger never matches an access whose discriminator is the
      Execute enumerator. */
  lemma ReadWriteNeverMatchesExecute(kinds: KindCodes, base: Addr, t: Trigger, a: Addr)
    requires kinds.Valid() && t.kind == kinds.readWrite
    ensures !TriggerMatches(kinds, base, t, a, kinds.execute)
  {
  }

  /** A trigger whose kind is not ReadWrite matches only its own kind. */
  lemma OtherKindsMatchExactly(kinds: KindCodes, base: Addr, t: Trigger, a: Addr, access: nat)
    requires t.kind != kinds.readWrite
    ensures TriggerMatches(kinds, base, t, a, access) <==>
      base + t.offset <= a < base + t.offset + t.size && access == t.kind
  {
  }

  /** The second-level ledger key of a passive hit: the faulting instruction
      for a non-Execute trigger, the thread for an Execute trigger. The choice
      follows the trigger's kind, not the access discriminator. */
  function LedgerKey(kinds: KindCodes, t: Trigger, f: Fault): Key
  {
    if t.kind != kinds.execute then f.excAddr else f.tid
  }

  /** The occurrence count of a ledger cell; 0 for a cell not yet created. */
  function CountAt(ledger: Ledger, addr: Addr, key: Key): nat
  {
    if addr in ledger && key in ledger[addr] then ledger[addr][key].count else 0
  }

  /** Record one hit in cell `(addr, key)`: create the cell with a zero count
      when absent, increment its count, and store the thread and context. */
  function Upsert(ledger: Ledger, addr: Addr, key: Key, tid: ThreadId, ctx: Context): (r: Ledger)
    ensures r.Keys == ledger.Keys + {addr}
    ensures addr in ledger ==> r[addr].Keys == ledger[addr].Keys + {key}
    ensures addr !in ledger ==> r[addr].Keys == {key}
    ensures r[addr][key] == Info(CountAt(ledger, addr, key) + 1, tid, ctx)
    ensures forall k :: addr in ledger && k in ledger[addr] && k != key ==> r[addr][k] == ledger[addr][k]
    ensures forall a :: a in ledger && a != addr ==> r[a] == ledger[a]
  {
    var cells := if addr in ledger then ledger[addr] else map[];
    var old_ := if key in cells then cells[key] else Info(0, 0, []);
    ledger[addr := cells[key := Info(old_.count + 1, tid, ctx)]]
  }

  /** A cell is only ever added to or counted up: every existing cell stays,
      with a count at least as large. */
  ghost predicate LedgerGrows(before: Ledger, after: Ledger)
  {
    forall a, k :: a in before && k in before[a] ==>
      a in after && k in after[a] && before[a][k].count <= after[a][k].count
  }

  lemma UpsertGrows(ledger: Ledger, addr: Addr, key: Key, tid: ThreadId, ctx: Context)
    ensures LedgerGrows(ledger, Upsert(ledger, addr, key, tid, ctx))
  {
  }

  lemma {:induction false} LedgerGrowsTransitive(a: Ledger, b: Ledger, c: Ledger)
    requires LedgerGrows(a, b) && LedgerGrows(b, c)
    ensures LedgerGrows(a, c)
  {
  }
}
