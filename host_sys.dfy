/**
 * Windows virtual-memory helpers of the host layer: the mapping of a
 * read/write/execute request onto one Windows page-protection constant, the
 * commit / map / unmap / protect wrappers with their failure handling, and the
 * access-violation filter that forwards page faults to the emulator.
 *
 * Every Windows call is an oracle: its success and the last-error value are
 * parameters, and each operation returns the calls it makes (and the
 * diagnostics it raises) as a trace next to its result.
 */
module HostSys {
  import opened Wrappers

  // Windows page-protection constants.
  const PAGE_NOACCESS: int := 0x01
  const PAGE_READONLY: int := 0x02
  const PAGE_READWRITE: int := 0x04
  const PAGE_EXECUTE_READ: int := 0x20
  const PAGE_EXECUTE_READWRITE: int := 0x40

  // Allocation types.
  const MEM_COMMIT: int := 0x1000
  const MEM_RESERVE: int := 0x2000
  const MEM_RELEASE: int := 0x8000

  // Error codes distinguished after a failed commit.
  const ERROR_NOT_ENOUGH_MEMORY: int := 8
  const ERROR_OUTOFMEMORY: int := 14
  const ERROR_COMMITMENT_MINIMUM: int := 635

  // Exception codes and filter results.
  const EXCEPTION_ACCESS_VIOLATION: int := 0xC000_0005
  const EXCEPTION_CONTINUE_SEARCH: int := 0
  const EXCEPTION_CONTINUE_EXECUTION: int := -1
  const EXCEPTION_EXECUTE_HANDLER: int := 1
  const EXCEPTION_MAXIMUM_PARAMETERS: nat := 15

  /** The emulator's PageProtectionMode: three independent permission bits. */
  datatype PageProtectionMode = PageProtectionMode(read: bool, write: bool, execute: bool)

  /** Which build the code is compiled for. */
  datatype Platform = Desktop | Uwp

  /** The observable effects of the wrappers, in order. */
  datatype Effect =
    | Alloc(base: int, size: int, allocationType: int, protect: int)
    | Protect(base: int, size: int, protect: int)
    | Free(base: int, size: int, freeType: int)
    | Warning(code: int)
    | Sleep(milliseconds: int)
    | FailDev

  // ---------------------------------------------------------------------------
  // Protection constants
  // ---------------------------------------------------------------------------

  /** The five constants ConvertToWinApi can produce. */
  predicate IsWinProtection(c: int)
  {
    c == PAGE_NOACCESS || c == PAGE_READONLY || c == PAGE_READWRITE
    || c == PAGE_EXECUTE_READ || c == PAGE_EXECUTE_READWRITE
  }

  /** The access a Windows protection constant grants, as permission bits. */
  function Grants(c: int): PageProtectionMode
    requires IsWinProtection(c)
  {
    if c == PAGE_NOACCESS then PageProtectionMode(false, false, false)
    else if c == PAGE_READONLY then PageProtectionMode(true, false, false)
    else if c == PAGE_READWRITE then PageProtectionMode(true, true, false)
    else if c == PAGE_EXECUTE_READ then PageProtectionMode(true, false, true)
    else PageProtectionMode(true, true, true)
  }

  /** ConvertToWinApi: execute decides first, then read; write only refines the choice. */
  function ConvertToWinApi(mode: PageProtectionMode): (c: int)
    ensures IsWinProtection(c)
    ensures Grants(c).execute == mode.execute
  {
    if mode.execute then
      (if mode.write then PAGE_EXECUTE_READWRITE else PAGE_EXECUTE_READ)
    else if mode.read then
      (if mode.write then PAGE_READWRITE else PAGE_READONLY)
    else
      PAGE_NOACCESS
  }

  /** With execute requested the read bit is irrelevant and write selects the constant. */
  lemma ConvertExecute(mode: PageProtectionMode)
    requires mode.execute
    ensures ConvertToWinApi(mode) == (if mode.write then PAGE_EXECUTE_READWRITE else PAGE_EXECUTE_READ)
    ensures ConvertToWinApi(mode) == ConvertToWinApi(mode.(read := !mode.read))
  {
  }

  /** Without execute: read+write, read alone, and no read (write-only included) give RW, RO and no access. */
  lemma ConvertNoExecute(mode: PageProtectionMode)
    requires !mode.execute
    ensures mode.read && mode.write ==> ConvertToWinApi(mode) == PAGE_READWRITE
    ensures mode.read && !mode.write ==> ConvertToWinApi(mode) == PAGE_READONLY
    ensures !mode.read ==> ConvertToWinApi(mode) == PAGE_NOACCESS
  {
  }

  /**
   * The constant grants every requested permission exactly when the request
   * is not write-only; write and execute are never granted unasked, while
   * read is added whenever execute or write is granted.
   */
  lemma ConvertGrantsRequested(mode: PageProtectionMode)
    ensures var g := Grants(ConvertToWinApi(mode));
      (mode.read ==> g.read) && (mode.execute ==> g.execute)
      && (mode.write ==> g.write) == (mode.read || mode.execute || !mode.write)
    ensures var g := Grants(ConvertToWinApi(mode));
      (g.write ==> mode.write) && (g.execute ==> mode.execute)
      && (g.read <==> mode.read || mode.execute)
  {
  }

  // ---------------------------------------------------------------------------
  // Commit, map, unmap, protect
  // ---------------------------------------------------------------------------

  /** Diagnostics raised after a failed commit, chosen by the last-error value. */
  function CommitFailureEffects(lastError: int): (e: seq<Effect>)
    ensures |e| <= 2
    ensures FailDev in e <==>
      lastError != ERROR_COMMITMENT_MINIMUM && lastError != ERROR_NOT_ENOUGH_MEMORY && lastError != ERROR_OUTOFMEMORY
    ensures Sleep(1000) in e <==> lastError == ERROR_COMMITMENT_MINIMUM
  {
    if lastError == ERROR_COMMITMENT_MINIMUM then
      [Warning(ERROR_COMMITMENT_MINIMUM), Sleep(1000)]
    else if lastError != ERROR_NOT_ENOUGH_MEMORY && lastError != ERROR_OUTOFMEMORY then
      [FailDev]
    else
      []
  }

  /**
   * MmapCommitPtr. Desktop commits with the converted protection. UWP commits
   * without execute and, if execute was asked for, reprotects to
   * PAGE_EXECUTE_READWRITE, releasing the range when that fails.
   */
  function MmapCommitPtr(platform: Platform, base: int, size: int, mode: PageProtectionMode,
                         allocOk: bool, reprotectOk: bool, lastError: int): (bool, seq<Effect>)
  {
    var attempt :=
      if platform == Desktop then
        (allocOk, [Alloc(base, size, MEM_COMMIT, ConvertToWinApi(mode))])
      else
        var first := [Alloc(base, size, MEM_COMMIT, ConvertToWinApi(mode.(execute := false)))];
        if allocOk && mode.execute then
          if reprotectOk then (true, first + [Protect(base, size, PAGE_EXECUTE_READWRITE)])
          else (false, first + [Protect(base, size, PAGE_EXECUTE_READWRITE), Free(base, size, MEM_RELEASE)])
        else (allocOk, first);
    if attempt.0 then attempt else (false, attempt.1 + CommitFailureEffects(lastError))
  }

  /**
   * MmapCommitPtr succeeds exactly when the commit, and on UWP the reprotect
   * to execute, succeed; it allocates once and never retries; a failure
   * raises a dev failure exactly for errors other than the three memory
   * errors, and sleeps once exactly for ERROR_COMMITMENT_MINIMUM.
   */
  lemma MmapCommitOutcome(platform: Platform, base: int, size: int, mode: PageProtectionMode,
                          allocOk: bool, reprotectOk: bool, lastError: int)
    ensures var (ok, e) := MmapCommitPtr(platform, base, size, mode, allocOk, reprotectOk, lastError);
      ok <==> allocOk && (platform == Desktop || !mode.execute || reprotectOk)
    ensures var (ok, e) := MmapCommitPtr(platform, base, size, mode, allocOk, reprotectOk, lastError);
      e[0].Alloc? && e[0].base == base && e[0].allocationType == MEM_COMMIT
      && forall i :: 0 < i < |e| ==> !e[i].Alloc?
    ensures var (ok, e) := MmapCommitPtr(platform, base, size, mode, allocOk, reprotectOk, lastError);
      !ok ==> (FailDev in e <==> lastError !in {ERROR_COMMITMENT_MINIMUM, ERROR_NOT_ENOUGH_MEMORY, ERROR_OUTOFMEMORY})
    ensures var (ok, e) := MmapCommitPtr(platform, base, size, mode, allocOk, reprotectOk, lastError);
      !ok ==> (Sleep(1000) in e <==> lastError == ERROR_COMMITMENT_MINIMUM)
    ensures var (ok, e) := MmapCommitPtr(platform, base, size, mode, allocOk, reprotectOk, lastError);
      ok ==> FailDev !in e && (forall m :: m in e ==> !m.Sleep?)
  {
    var (ok, e) := MmapCommitPtr(platform, base, size, mode, allocOk, reprotectOk, lastError);
    var attempt :=
      if platform == Desktop then
        (allocOk, [Alloc(base, size, MEM_COMMIT, ConvertToWinApi(mode))])
      else
        var first := [Alloc(base, size, MEM_COMMIT, ConvertToWinApi(mode.(execute := false)))];
        if allocOk && mode.execute then
          if reprotectOk then (true, first + [Protect(base, size, PAGE_EXECUTE_READWRITE)])
          else (false, first + [Protect(base, size, PAGE_EXECUTE_READWRITE), Free(base, size, MEM_RELEASE)])
        else (allocOk, first);
    if !ok {
      assert forall m :: m in e <==> m in attempt.1 || m in CommitFailureEffects(lastError);
    }
  }

  /**
   * On UWP the commit never asks for execute; when execute is wanted the
   * range is reprotected to PAGE_EXECUTE_READWRITE even if write was not
   * requested, and a failed reprotect releases the range.
   */
  lemma UwpCommitProtection(base: int, size: int, mode: PageProtectionMode,
                            allocOk: bool, reprotectOk: bool, lastError: int)
    ensures var (ok, e) := MmapCommitPtr(Uwp, base, size, mode, allocOk, reprotectOk, lastError);
      !Grants(e[0].protect).execute
    ensures var (ok, e) := MmapCommitPtr(Uwp, base, size, mode, allocOk, reprotectOk, lastError);
      allocOk && mode.execute ==> e[1] == Protect(base, size, PAGE_EXECUTE_READWRITE)
    ensures var (ok, e) := MmapCommitPtr(Uwp, base, size, mode, allocOk, reprotectOk, lastError);
      Free(base, size, MEM_RELEASE) in e <==> allocOk && mode.execute && !reprotectOk
  {
    var (ok, e) := MmapCommitPtr(Uwp, base, size, mode, allocOk, reprotectOk, lastError);
    assert !Grants(ConvertToWinApi(mode.(execute := false))).execute;
    assert forall m :: m in CommitFailureEffects(lastError) ==> !m.Free?;
  }

  /**
   * Mmap. Desktop reserves and commits PAGE_EXECUTE_READWRITE in one call.
   * UWP commits read-write, then reprotects the returned range to
   * PAGE_EXECUTE_READWRITE, releasing it and returning null if that fails.
   * `returned` is the allocator's result (None for null).
   */
  function Mmap(platform: Platform, base: int, size: int, returned: Option<int>, reprotectOk: bool): (Option<int>, seq<Effect>)
  {
    if platform == Desktop then
      (returned, [Alloc(base, size, MEM_RESERVE + MEM_COMMIT, PAGE_EXECUTE_READWRITE)])
    else
      var first := [Alloc(base, size, MEM_COMMIT, PAGE_READWRITE)];
      match returned
      case None => (None, first)
      case Some(p) =>
        if reprotectOk then (Some(p), first + [Protect(p, size, PAGE_EXECUTE_READWRITE)])
        else (None, first + [Protect(p, size, PAGE_EXECUTE_READWRITE), Free(p, size, MEM_RELEASE)])
  }

  /**
   * A range returned by Mmap is readable, writable and executable: the last
   * protection set on it is PAGE_EXECUTE_READWRITE. On UWP a null result
   * leaves nothing returned: any allocation made was released.
   */
  lemma MmapResult(platform: Platform, base: int, size: int, returned: Option<int>, reprotectOk: bool)
    ensures var (r, e) := Mmap(platform, base, size, returned, reprotectOk);
      r.Some? ==> (r == returned && e[|e| - 1].protect == PAGE_EXECUTE_READWRITE
        && (e[|e| - 1].Alloc? || e[|e| - 1] == Protect(r.value, size, PAGE_EXECUTE_READWRITE)))
    ensures var (r, e) := Mmap(platform, base, size, returned, reprotectOk);
      platform == Uwp && r.None? && returned.Some? ==> e[|e| - 1] == Free(returned.value, size, MEM_RELEASE)
    ensures var (r, e) := Mmap(platform, base, size, returned, reprotectOk);
      platform == Uwp ==> e[0] == Alloc(base, size, MEM_COMMIT, PAGE_READWRITE) && !Grants(e[0].protect).execute
  {
  }

  /** Munmap: a null base does nothing; otherwise the whole allocation is released (size 0). */
  function Munmap(base: int, size: int): (e: seq<Effect>)
    ensures base == 0 <==> e == []
    ensures base != 0 ==> e == [Free(base, 0, MEM_RELEASE)]
  {
    if base == 0 then [] else [Free(base, 0, MEM_RELEASE)]
  }

  /**
   * MemProtect: the size must be a whole number of pages, stated as a
   * remainder test on the page size. A failed VirtualProtect raises a dev
   * failure.
   */
  function MemProtect(base: int, size: nat, pageSize: nat, mode: PageProtectionMode, protectOk: bool): (e: seq<Effect>)
    requires pageSize > 0 && size % pageSize == 0
    ensures |e| > 0 && e[0] == Protect(base, size, ConvertToWinApi(mode))
    ensures FailDev in e <==> !protectOk
  {
    [Protect(base, size, ConvertToWinApi(mode))] + (if protectOk then [] else [FailDev])
  }

  // ---------------------------------------------------------------------------
  // Page-fault filter
  // ---------------------------------------------------------------------------

  /** The fields of EXCEPTION_RECORD the filter reads. */
  datatype ExceptionRecord = ExceptionRecord(exceptionCode: int, exceptionInformation: seq<int>)

  /** The filter's verdict and the fault address it dispatched, if any. */
  datatype FilterDecision = FilterDecision(disposition: int, dispatched: Option<int>)

  /**
   * DoSysPageFaultExceptionFilter. Only access violations are dispatched,
   * with the faulting address from ExceptionInformation[1]; `wasHandled` is
   * the page-fault source's verdict on that address.
   */
  function DoSysPageFaultExceptionFilter(er: ExceptionRecord, wasHandled: int -> bool): FilterDecision
    requires |er.exceptionInformation| == EXCEPTION_MAXIMUM_PARAMETERS
  {
    if er.exceptionCode != EXCEPTION_ACCESS_VIOLATION then
      FilterDecision(EXCEPTION_CONTINUE_SEARCH, None)
    else
      var address := er.exceptionInformation[1];
      FilterDecision(if wasHandled(address) then EXCEPTION_CONTINUE_EXECUTION else EXCEPTION_CONTINUE_SEARCH, Some(address))
  }

  /**
   * Anything but an access violation is passed on undispatched; an access
   * violation is dispatched with its address and execution continues exactly
   * when the dispatcher handled it.
   */
  lemma FaultFilterDecision(er: ExceptionRecord, wasHandled: int -> bool)
    requires |er.exceptionInformation| == EXCEPTION_MAXIMUM_PARAMETERS
    ensures var d := DoSysPageFaultExceptionFilter(er, wasHandled);
      er.exceptionCode != EXCEPTION_ACCESS_VIOLATION ==> d == FilterDecision(EXCEPTION_CONTINUE_SEARCH, None)
    ensures var d := DoSysPageFaultExceptionFilter(er, wasHandled);
      er.exceptionCode == EXCEPTION_ACCESS_VIOLATION ==>
        d.dispatched == Some(er.exceptionInformation[1])
        && (d.disposition == EXCEPTION_CONTINUE_EXECUTION <==> wasHandled(er.exceptionInformation[1]))
    ensures var d := DoSysPageFaultExceptionFilter(er, wasHandled);
      d.disposition == EXCEPTION_CONTINUE_EXECUTION || d.disposition == EXCEPTION_CONTINUE_SEARCH
  {
  }

  /** How a guarded (`__try`) filter call ends: it returns a value, or an exception escapes it. */
  datatype Guarded = Returned(value: int) | Escaped(exceptionCode: int)

  /**
   * The `__try`/`__except` guard around the filter: when the filter itself
   * raises `raised` (for example after the fault source was destroyed), an
   * access violation is swallowed and `onAccessViolation` returned, anything
   * else escapes.
   */
  function GuardFilter(inner: int, raised: Option<int>, onAccessViolation: int): Guarded
  {
    match raised
    case None => Returned(inner)
    case Some(code) =>
      if code == EXCEPTION_ACCESS_VIOLATION then Returned(onAccessViolation) else Escaped(code)
  }

  /** SysPageFaultExceptionFilter: the filter under the recursion guard. */
  function SysPageFaultExceptionFilter(er: ExceptionRecord, wasHandled: int -> bool, raised: Option<int>): Guarded
    requires |er.exceptionInformation| == EXCEPTION_MAXIMUM_PARAMETERS
  {
    GuardFilter(DoSysPageFaultExceptionFilter(er, wasHandled).disposition, raised, EXCEPTION_CONTINUE_SEARCH)
  }

  /**
   * The guard never turns a fault into continued execution: the outer filter
   * continues execution only when the inner filter completed and did; an
   * access violation inside the filter yields CONTINUE_SEARCH.
   */
  lemma GuardedFilterSafe(er: ExceptionRecord, wasHandled: int -> bool, raised: Option<int>)
    requires |er.exceptionInformation| == EXCEPTION_MAXIMUM_PARAMETERS
    ensures SysPageFaultExceptionFilter(er, wasHandled, raised) == Returned(EXCEPTION_CONTINUE_EXECUTION) <==>
      raised.None? && DoSysPageFaultExceptionFilter(er, wasHandled).disposition == EXCEPTION_CONTINUE_EXECUTION
    ensures raised == Some(EXCEPTION_ACCESS_VIOLATION) ==>
      SysPageFaultExceptionFilter(er, wasHandled, raised) == Returned(EXCEPTION_CONTINUE_SEARCH)
    ensures raised.Some? && raised.value != EXCEPTION_ACCESS_VIOLATION ==>
      SysPageFaultExceptionFilter(er, wasHandled, raised) == Escaped(raised.value)
  {
  }

  // EXCEPTION_DISPOSITION values returned by a language-specific handler.
  const ExceptionContinueExecution: int := 0
  const ExceptionContinueSearch: int := 1

  /**
   * UnwindExceptionHandler (the UWP route into the same filter): the filter's
   * CONTINUE_EXECUTION becomes ExceptionContinueExecution, anything else
   * ExceptionContinueSearch, under the same guard.
   */
  function UnwindExceptionHandler(er: ExceptionRecord, wasHandled: int -> bool, raised: Option<int>): Guarded
    requires |er.exceptionInformation| == EXCEPTION_MAXIMUM_PARAMETERS
  {
    var result := DoSysPageFaultExceptionFilter(er, wasHandled).disposition;
    GuardFilter(if result == EXCEPTION_CONTINUE_EXECUTION then ExceptionContinueExecution else ExceptionContinueSearch,
                raised, ExceptionContinueSearch)
  }

  /** The unwind handler continues execution exactly when the vectored filter would. */
  lemma UnwindHandlerAgreesWithFilter(er: ExceptionRecord, wasHandled: int -> bool, raised: Option<int>)
    requires |er.exceptionInformation| == EXCEPTION_MAXIMUM_PARAMETERS
    ensures UnwindExceptionHandler(er, wasHandled, raised) == Returned(ExceptionContinueExecution) <==>
      SysPageFaultExceptionFilter(er, wasHandled, raised) == Returned(EXCEPTION_CONTINUE_EXECUTION)
    ensures UnwindExceptionHandler(er, wasHandled, raised).Returned? <==>
      SysPageFaultExceptionFilter(er, wasHandled, raised).Returned?
  {
  }
}
