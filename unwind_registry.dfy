/**
 * The UWP JIT unwind-handler registry: an append-only singly linked chain of
 * UnwindHandler records (s_handler_head / s_handler_tail), the lookup the
 * function-table callback performs over it, and the installation of a new
 * record with its RUNTIME_FUNCTION / UNWIND_INFO fields (Microsoft x64
 * exception-handling ABI) and its 12-byte trampoline `mov rax, imm64; jmp rax`.
 *
 * Addresses are integers with 0 standing for nullptr. The record memory is a
 * map from record address to record; the Windows calls (registering the
 * callback, changing page protection) are success oracles.
 */
module UnwindRegistry {
  import opened Wrappers
  import HostSys

  /** offsetof(UnwindHandler, unwind_info): RUNTIME_FUNCTION is three DWORDs. */
  const OFFSET_UNWIND_INFO: nat := 12
  /** offsetof(UnwindHandler, exception_handler_code): UNWIND_INFO is four bytes and a DWORD. */
  const OFFSET_HANDLER_CODE: nat := 20
  /** Length of exception_handler_code. */
  const HANDLER_CODE_SIZE: nat := 32
  /** Length of the trampoline written at the start of exception_handler_code. */
  const TRAMPOLINE_SIZE: nat := 12
  const UNW_FLAG_EHANDLER: int := 1
  const DWORD_MAX: int := 0xFFFF_FFFF
  const TWO_TO_THE_64: int := 0x1_0000_0000_0000_0000

  /** static_cast<DWORD>: truncation to 32 bits. */
  function Dword(x: int): (r: int)
    ensures 0 <= r <= DWORD_MAX
    ensures 0 <= x <= DWORD_MAX ==> r == x
  {
    x % (DWORD_MAX + 1)
  }

  datatype RuntimeFunction = RuntimeFunction(beginAddress: int, endAddress: int, unwindInfoAddress: int)

  datatype UnwindInfo = UnwindInfo(version: int, flags: int, sizeOfPrologue: int, countOfUnwindCodes: int,
                                   frameRegister: int, frameOffsetScaled: int, exceptionHandlerAddress: int)

  /** One UnwindHandler record. */
  datatype UnwindHandler = UnwindHandler(runtimeFunction: RuntimeFunction, unwindInfo: UnwindInfo,
                                         handlerCode: seq<int>, codeBase: int, codeEnd: int, next: int)

  /** The record covers the code address `pc`: code_base <= pc < code_end. */
  predicate Covers(h: UnwindHandler, pc: int)
  {
    h.codeBase <= pc < h.codeEnd
  }

  // ---------------------------------------------------------------------------
  // The trampoline
  // ---------------------------------------------------------------------------

  function Pow256(n: nat): nat
  {
    if n == 0 then 1 else 256 * Pow256(n - 1)
  }

  /** The n-byte little-endian encoding of v (the byte copy of a pointer on x64). */
  function LittleEndian(v: nat, n: nat): (b: seq<int>)
    ensures |b| == n
    ensures forall i :: 0 <= i < n ==> 0 <= b[i] < 256
  {
    if n == 0 then [] else [v % 256] + LittleEndian(v / 256, n - 1)
  }

  function FromLittleEndian(b: seq<int>): int
  {
    if b == [] then 0 else b[0] + 256 * FromLittleEndian(b[1..])
  }

  lemma {:induction false} LittleEndianRoundTrip(v: nat, n: nat)
    requires v < Pow256(n)
    ensures FromLittleEndian(LittleEndian(v, n)) == v
  {
    if n > 0 {
      LittleEndianRoundTrip(v / 256, n - 1);
      assert LittleEndian(v, n)[1..] == LittleEndian(v / 256, n - 1);
    }
  }

  /** `mov rax, imm64` (REX.W B8+r) followed by `jmp rax` (FF /4 with ModRM E0). */
  function Trampoline(target: nat): (code: seq<int>)
    requires target < TWO_TO_THE_64
    ensures |code| == TRAMPOLINE_SIZE
    ensures forall i :: 0 <= i < |code| ==> 0 <= code[i] < 256
  {
    [0x48, 0xB8] + LittleEndian(target, 8) + [0xFF, 0xE0]
  }

  /** Reads back the jump target of a trampoline, if the bytes are one. */
  function DecodeTrampoline(code: seq<int>): Option<int>
  {
    if |code| >= TRAMPOLINE_SIZE && code[0] == 0x48 && code[1] == 0xB8 && code[10] == 0xFF && code[11] == 0xE0
    then Some(FromLittleEndian(code[2..10]))
    else None
  }

  /** Whatever follows the trampoline, decoding it gives back the target address. */
  lemma TrampolineRoundTrip(target: nat, rest: seq<int>)
    requires target < TWO_TO_THE_64
    ensures DecodeTrampoline(Trampoline(target) + rest) == Some(target)
  {
    var code := Trampoline(target) + rest;
    assert code[2..10] == LittleEndian(target, 8);
    assert Pow256(8) == TWO_TO_THE_64;
    LittleEndianRoundTrip(target, 8);
  }

  // ---------------------------------------------------------------------------
  // Chain shape and lookup specification
  // ---------------------------------------------------------------------------

  /**
   * `chain` lists the records reachable from the head, in order: non-null,
   * distinct, present in memory, each linked to the next and the last to null.
   */
  ghost predicate LinkedChain(chain: seq<int>, memory: map<int, UnwindHandler>)
  {
    (forall i :: 0 <= i < |chain| ==> chain[i] != 0 && chain[i] in memory)
    && (forall i, j :: 0 <= i < j < |chain| ==> chain[i] != chain[j])
    && (forall i :: 0 <= i < |chain| - 1 ==> memory[chain[i]].next == chain[i + 1])
    && (chain != [] ==> memory[chain[|chain| - 1]].next == 0)
  }

  /** Every record of the chain is in memory. */
  ghost predicate InMemory(chain: seq<int>, memory: map<int, UnwindHandler>)
  {
    forall i :: 0 <= i < |chain| ==> chain[i] in memory
  }

  /** The record the lookup should find: the first in chain order covering `pc`. */
  function FirstCovering(chain: seq<int>, memory: map<int, UnwindHandler>, pc: int): (r: Option<int>)
    requires InMemory(chain, memory)
    ensures r.Some? ==>
      exists k :: (0 <= k < |chain| && chain[k] == r.value && Covers(memory[chain[k]], pc)
                   && forall j :: 0 <= j < k ==> !Covers(memory[chain[j]], pc))
    ensures r.None? <==> forall i :: 0 <= i < |chain| ==> !Covers(memory[chain[i]], pc)
  {
    if chain == [] then None
    else if Covers(memory[chain[0]], pc) then Some(chain[0])
    else
      var r := FirstCovering(chain[1..], memory, pc);
      if r.Some? then
        var k :| 0 <= k < |chain[1..]| && chain[1..][k] == r.value && Covers(memory[chain[1..][k]], pc)
          && (forall j :: 0 <= j < k ==> !Covers(memory[chain[1..][j]], pc));
        assert chain[k + 1] == r.value;
        r
      else
        assert forall i :: 1 <= i < |chain| ==> chain[i] == chain[1..][i - 1];
        r
  }

  /**
   * Appending a record to the chain (and relinking the old last record) keeps
   * every answer the chain already gave; a pc no earlier record covers is
   * answered by the new record exactly when it covers it.
   */
  lemma {:induction false} FirstCoveringAppend(chain: seq<int>, memory: map<int, UnwindHandler>,
                                               memory': map<int, UnwindHandler>, uh: int, pc: int)
    requires InMemory(chain, memory) && InMemory(chain, memory') && uh in memory'
    requires forall i :: 0 <= i < |chain| ==>
      memory'[chain[i]].codeBase == memory[chain[i]].codeBase && memory'[chain[i]].codeEnd == memory[chain[i]].codeEnd
    ensures FirstCovering(chain + [uh], memory', pc) ==
      match FirstCovering(chain, memory, pc)
      case Some(a) => Some(a)
      case None => if Covers(memory'[uh], pc) then Some(uh) else None
  {
    assert InMemory(chain + [uh], memory');
    if chain != [] {
      assert (chain + [uh])[1..] == chain[1..] + [uh];
      FirstCoveringAppend(chain[1..], memory, memory', uh, pc);
    }
  }

  /**
   * Linking a new last record behind the chain, and writing it with a null
   * next pointer, gives a chain one longer.
   */
  lemma AppendLinked(chain: seq<int>, memory: map<int, UnwindHandler>, uh: int, record: UnwindHandler)
    requires LinkedChain(chain, memory)
    requires uh != 0 && uh !in chain && record.next == 0
    ensures chain != [] ==>
      LinkedChain(chain + [uh], memory[chain[|chain| - 1] := memory[chain[|chain| - 1]].(next := uh)][uh := record])
    ensures chain == [] ==> LinkedChain([uh], memory[uh := record])
  {
    if chain != [] {
      var last := chain[|chain| - 1];
      var m := memory[last := memory[last].(next := uh)][uh := record];
      var c := chain + [uh];
      forall i | 0 <= i < |c| - 1 ensures m[c[i]].next == c[i + 1] {
        if i < |chain| - 1 {
          assert c[i] != last && c[i] != uh;
        }
      }
    }
  }

  /** Why an installation stopped, in the order the steps are attempted. */
  datatype InstallStatus =
    | Installed
    | CallbackFailed
    | HandlerReprotectFailed
    | PreviousWritableFailed
    | PreviousExecutableFailed
    | HandlerExecutableFailed

  /**
   * The record UWPInstallExceptionHandlerForJIT writes for code at `startPc`
   * of `codeSize` bytes, the record sitting `offset` bytes after the code;
   * `priorCode` is what exception_handler_code held before.
   */
  function NewRecord(startPc: int, codeSize: int, offset: int, handlerAddress: nat, priorCode: seq<int>): UnwindHandler
    requires handlerAddress < TWO_TO_THE_64 && |priorCode| == HANDLER_CODE_SIZE
  {
    UnwindHandler(
      RuntimeFunction(0, Dword(codeSize), Dword(offset + OFFSET_UNWIND_INFO)),
      UnwindInfo(1, UNW_FLAG_EHANDLER, 0, 0, 0, 0, Dword(offset + OFFSET_HANDLER_CODE)),
      Trampoline(handlerAddress) + priorCode[TRAMPOLINE_SIZE..], startPc, startPc + codeSize, 0)
  }

  /**
   * The written record covers exactly [startPc, startPc + codeSize), its
   * RUNTIME_FUNCTION spans the code and points at the UNWIND_INFO, which
   * points at the trampoline; the trampoline jumps to the handler and the
   * rest of exception_handler_code is left as it was.
   */
  lemma NewRecordLayout(startPc: int, codeSize: int, offset: int, handlerAddress: nat, priorCode: seq<int>)
    requires handlerAddress < TWO_TO_THE_64 && |priorCode| == HANDLER_CODE_SIZE
    requires 0 <= codeSize <= DWORD_MAX && 0 <= offset <= DWORD_MAX
    ensures var h := NewRecord(startPc, codeSize, offset, handlerAddress, priorCode);
      (forall pc :: Covers(h, pc) <==> startPc <= pc < startPc + codeSize)
      && h.next == 0
      && h.runtimeFunction.beginAddress == 0 && h.runtimeFunction.endAddress == codeSize
      && h.runtimeFunction.unwindInfoAddress == Dword(offset + OFFSET_UNWIND_INFO)
      && h.unwindInfo.exceptionHandlerAddress == Dword(offset + OFFSET_HANDLER_CODE)
      && h.unwindInfo.version == 1 && h.unwindInfo.flags == UNW_FLAG_EHANDLER
    ensures var h := NewRecord(startPc, codeSize, offset, handlerAddress, priorCode);
      offset + OFFSET_HANDLER_CODE <= DWORD_MAX ==>
        h.runtimeFunction.unwindInfoAddress == offset + OFFSET_UNWIND_INFO
        && h.unwindInfo.exceptionHandlerAddress == offset + OFFSET_HANDLER_CODE
    ensures var h := NewRecord(startPc, codeSize, offset, handlerAddress, priorCode);
      |h.handlerCode| == HANDLER_CODE_SIZE && h.handlerCode[TRAMPOLINE_SIZE..] == priorCode[TRAMPOLINE_SIZE..]
      && h.handlerCode[..TRAMPOLINE_SIZE] == [0x48, 0xB8] + LittleEndian(handlerAddress, 8) + [0xFF, 0xE0]
      && DecodeTrampoline(h.handlerCode) == Some(handlerAddress)
  {
    var h := NewRecord(startPc, codeSize, offset, handlerAddress, priorCode);
    TrampolineRoundTrip(handlerAddress, priorCode[TRAMPOLINE_SIZE..]);
    assert h.handlerCode[..TRAMPOLINE_SIZE] == Trampoline(handlerAddress);
  }

  /** Record memory after the record at `tail` (if any) is pointed at `uh`. */
  function Relinked(memory: map<int, UnwindHandler>, tail: int, uh: int): map<int, UnwindHandler>
    requires tail != 0 ==> tail in memory
  {
    if tail == 0 then memory else memory[tail := memory[tail].(next := uh)]
  }

  /** The handler chain and the state the installer touches. */
  class Registry {
    /** s_handler_head and s_handler_tail (0 for nullptr). */
    var head: int
    var tail: int
    /** The UnwindHandler records written so far, by address. */
    var memory: map<int, UnwindHandler>
    /** The last page protection set on each record's region. */
    var protection: map<int, int>
    /** Function-table callbacks registered with the system: (code start, code size). */
    var callbacks: seq<(int, int)>
    /** The records reachable from head, in order. */
    ghost var chain: seq<int>

    ghost predicate Valid()
      reads this
    {
      LinkedChain(chain, memory)
      && head == (if chain == [] then 0 else chain[0])
      && tail == (if chain == [] then 0 else chain[|chain| - 1])
    }

    /** The empty chain of program start. */
    constructor()
      ensures Valid() && chain == [] && head == 0 && tail == 0
      ensures memory == map[] && protection == map[] && callbacks == []
    {
      head, tail := 0, 0;
      memory, protection, callbacks := map[], map[], [];
      chain := [];
    }

    /**
     * GetRuntimeFunctionCallback: walks the chain from the head and returns
     * the address of the first record (its runtime_function comes first)
     * whose code range holds `controlPc`.
     */
    method GetRuntimeFunctionCallback(controlPc: int) returns (r: Option<int>)
      requires Valid()
      ensures r == FirstCovering(chain, memory, controlPc)
    {
      var handler := head;
      ghost var i := 0;
      while handler != 0
        invariant 0 <= i <= |chain|
        invariant handler == (if i < |chain| then chain[i] else 0)
        invariant FirstCovering(chain, memory, controlPc) == FirstCovering(chain[i..], memory, controlPc)
        decreases |chain| - i
      {
        var h := memory[handler];
        if h.codeBase <= controlPc && controlPc < h.codeEnd {
          return Some(handler);
        }
        assert chain[i..][1..] == chain[i + 1..];
        handler := h.next;
        i := i + 1;
      }
      return None;
    }

    /**
     * The non-empty-chain branch of the installer: make the tail record
     * writable, point its next field at `uh`, make it executable again and
     * advance the tail. A failed protection change stops the sequence where
     * it happened, so a failure after the write leaves `uh` linked behind a
     * tail that was not advanced.
     */
    method LinkBehindTail(uh: int, previousWritableOk: bool, previousExecutableOk: bool) returns (status: InstallStatus)
      requires Valid() && tail != 0 && uh != 0
      modifies this
      ensures head == old(head) && chain == old(chain) && callbacks == old(callbacks)
      ensures status == Installed || status == PreviousWritableFailed || status == PreviousExecutableFailed
      ensures status == PreviousWritableFailed <==> !previousWritableOk
      ensures status == PreviousWritableFailed ==>
        tail == old(tail) && memory == old(memory) && protection == old(protection)
      ensures status != PreviousWritableFailed ==> memory == Relinked(old(memory), old(tail), uh)
      ensures status == PreviousExecutableFailed ==>
        tail == old(tail) && protection == old(protection)[old(tail) := HostSys.PAGE_READWRITE] && !Valid()
      ensures status == Installed ==>
        tail == uh && protection == old(protection)[old(tail) := HostSys.PAGE_EXECUTE_READ]
    {
      if !previousWritableOk {
        return PreviousWritableFailed;
      }
      protection := protection[tail := HostSys.PAGE_READWRITE];
      memory := memory[tail := memory[tail].(next := uh)];
      if !previousExecutableOk {
        assert memory[chain[|chain| - 1]].next == uh;
        return PreviousExecutableFailed;
      }
      protection := protection[tail := HostSys.PAGE_EXECUTE_READ];
      tail := uh;
      return Installed;
    }

    /** Stores the filled-in record of the new tail `uh`, which the chain now ends with. */
    method WriteRecord(uh: int, record: UnwindHandler)
      requires LinkedChain(chain + [uh], memory[uh := record])
      requires head == (chain + [uh])[0] && tail == uh
      modifies this
      ensures Valid() && chain == old(chain) + [uh] && memory == old(memory)[uh := record]
      ensures head == old(head) && tail == old(tail) && protection == old(protection) && callbacks == old(callbacks)
    {
      memory := memory[uh := record];
      chain := chain + [uh];
    }

    /**
     * "Add it to the handler chain" and fill in the record: an empty chain
     * gets `uh` as head and tail, otherwise `uh` is linked behind the tail.
     */
    method AddToChain(uh: int, record: UnwindHandler, previousWritableOk: bool, previousExecutableOk: bool)
      returns (status: InstallStatus)
      requires Valid() && uh != 0 && uh !in chain && record.next == 0
      modifies this
      ensures callbacks == old(callbacks)
      ensures status == Installed || status == PreviousWritableFailed || status == PreviousExecutableFailed
      ensures status == PreviousWritableFailed ==>
        old(tail) != 0 && head == old(head) && tail == old(tail) && memory == old(memory) && chain == old(chain)
        && protection == old(protection)
      ensures status == PreviousExecutableFailed ==>
        old(tail) != 0 && head == old(head) && tail == old(tail) && chain == old(chain)
        && memory == Relinked(old(memory), old(tail), uh) && !Valid()
        && protection == old(protection)[old(tail) := HostSys.PAGE_READWRITE]
      ensures status == Installed ==>
        Valid() && chain == old(chain) + [uh] && tail == uh
        && head == (if old(chain) == [] then uh else old(head))
        && memory == Relinked(old(memory), old(tail), uh)[uh := record]
        && protection == (if old(tail) == 0 then old(protection) else old(protection)[old(tail) := HostSys.PAGE_EXECUTE_READ])
    {
      if tail == 0 {
        head := uh;
        tail := uh;
      } else {
        var linked := LinkBehindTail(uh, previousWritableOk, previousExecutableOk);
        if linked != Installed {
          return linked;
        }
      }
      AppendLinked(chain, old(memory), uh, record);
      WriteRecord(uh, record);
      return Installed;
    }

    /**
     * UWPInstallExceptionHandlerForJIT for code at `startPc` of `codeSize`
     * bytes and a record at `uh`. The callback registration and the four
     * protection changes are oracles; `handlerAddress` is the address of
     * UnwindExceptionHandler and `priorCode` the record's code bytes before.
     */
    method Install(startPc: int, codeSize: int, uh: int, handlerAddress: nat, priorCode: seq<int>,
                   callbackOk: bool, handlerWritableOk: bool, previousWritableOk: bool,
                   previousExecutableOk: bool, handlerExecutableOk: bool)
      returns (ok: bool, status: InstallStatus)
      requires Valid()
      requires uh != 0 && uh !in chain
      requires uh >= startPc + codeSize
      requires 0 <= codeSize <= DWORD_MAX && uh - startPc <= DWORD_MAX
      requires handlerAddress < TWO_TO_THE_64 && |priorCode| == HANDLER_CODE_SIZE
      modifies this
      ensures ok <==> status == Installed
      ensures status == CallbackFailed <==> !callbackOk
      ensures status == CallbackFailed ==> unchanged(this)
      ensures callbackOk ==> callbacks == old(callbacks) + [(startPc, codeSize)]
      ensures status == HandlerReprotectFailed ==>
        head == old(head) && tail == old(tail) && memory == old(memory) && chain == old(chain)
        && protection == old(protection)
      ensures status == PreviousWritableFailed ==>
        old(tail) != 0 && head == old(head) && tail == old(tail) && memory == old(memory) && chain == old(chain)
        && protection == old(protection)[uh := HostSys.PAGE_READWRITE]
      ensures status == PreviousExecutableFailed ==>
        old(tail) != 0 && head == old(head) && tail == old(tail) && chain == old(chain)
        && memory == Relinked(old(memory), old(tail), uh) && !Valid()
      ensures status == Installed || status == HandlerExecutableFailed ==>
        Valid() && chain == old(chain) + [uh] && tail == uh
        && head == (if old(chain) == [] then uh else old(head))
        && memory == Relinked(old(memory), old(tail), uh)[uh := NewRecord(startPc, codeSize, uh - startPc, handlerAddress, priorCode)]
      ensures status == Installed ==>
        uh in protection && protection[uh] == HostSys.PAGE_EXECUTE_READ
        && (old(tail) != 0 ==> old(tail) in protection && protection[old(tail)] == HostSys.PAGE_EXECUTE_READ)
    {
      if !callbackOk {
        return false, CallbackFailed;
      }
      callbacks := callbacks + [(startPc, codeSize)];
      var offset := uh - startPc;

      if !handlerWritableOk {
        return false, HandlerReprotectFailed;
      }
      protection := protection[uh := HostSys.PAGE_READWRITE];

      var record := NewRecord(startPc, codeSize, offset, handlerAddress, priorCode);
      var linked := AddToChain(uh, record, previousWritableOk, previousExecutableOk);
      if linked != Installed {
        return false, linked;
      }

      if !handlerExecutableOk {
        return false, HandlerExecutableFailed;
      }
      protection := protection[uh := HostSys.PAGE_EXECUTE_READ];
      return true, Installed;
    }
  }

  /**
   * After a successful installation the lookup answers as before for every
   * pc the old chain covered, and answers `uh` for a pc in the new code range
   * that no earlier record covers.
   */
  lemma InstalledLookup(chain: seq<int>, memory: map<int, UnwindHandler>, memory': map<int, UnwindHandler>,
                        uh: int, startPc: int, codeSize: int, pc: int)
    requires InMemory(chain, memory) && InMemory(chain, memory') && uh in memory'
    requires forall i :: 0 <= i < |chain| ==>
      memory'[chain[i]].codeBase == memory[chain[i]].codeBase && memory'[chain[i]].codeEnd == memory[chain[i]].codeEnd
    requires memory'[uh].codeBase == startPc && memory'[uh].codeEnd == startPc + codeSize
    ensures FirstCovering(chain, memory, pc).Some? ==>
      FirstCovering(chain + [uh], memory', pc) == FirstCovering(chain, memory, pc)
    ensures FirstCovering(chain, memory, pc).None? ==>
      (FirstCovering(chain + [uh], memory', pc) == Some(uh) <==> startPc <= pc < startPc + codeSize)
  {
    FirstCoveringAppend(chain, memory, memory', uh, pc);
  }
}
