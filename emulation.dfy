/** The emulation thread's batch loop (gbcc_emulation_loop).
    The emulator core is external: executing one cycle is an abstract step
    whose only observable outcome here is whether it raised `core.error`,
    given by `fault(c)` for the c-th cycle (counted from 0). The shared
    `gbc->quit` flag is written by the other thread; `quitAt(b)` is the value
    this loop reads at its b-th check (b = 0 is the check on entry). */
module Emulation {

  /** Number of cycles run between two reads of the quit flag. */
  const BatchSize: nat := 1000

  /** Calls the loop makes into the emulator core, in order. */
  datatype Call = EmulateCycle | AudioUpdate

  /** The calls made by n cycles none of which faulted: each cycle is
      followed by exactly one audio update. */
  function Pairs(n: nat): (r: seq<Call>)
    ensures |r| == 2 * n
    ensures forall i :: 0 <= i < |r| ==> r[i] == (if i % 2 == 0 then EmulateCycle else AudioUpdate)
  {
    if n == 0 then [] else Pairs(n - 1) + [EmulateCycle, AudioUpdate]
  }

  /** The last of `cycles` executed cycles raised the error flag. */
  predicate Faulted(fault: nat -> bool, cycles: nat)
  {
    cycles > 0 && fault(cycles - 1)
  }

  /** Runs batches of BatchSize cycles while the quit flag reads false.
      Returns the function's return value, the value of `gbc->quit` on
      return, the number of cycles executed and the calls made.
      `stop` is a batch boundary at which the other thread has set the flag;
      it only bounds the loop for the termination proof. */
  method EmulationLoop(fault: nat -> bool, quitAt: nat -> bool, ghost stop: nat)
    returns (ret: int, quit: bool, cycles: nat, calls: seq<Call>)
    requires quitAt(stop)
    ensures ret == 0
    ensures quit
    ensures quitAt(0) ==> cycles == 0 && calls == []
    ensures forall c :: 0 <= c < cycles - 1 ==> !fault(c)
    ensures Faulted(fault, cycles) ==>
      && calls == Pairs(cycles - 1) + [EmulateCycle]
      && (forall b :: 0 <= b <= (cycles - 1) / BatchSize ==> !quitAt(b))
    ensures !Faulted(fault, cycles) ==>
      && cycles % BatchSize == 0
      && calls == Pairs(cycles)
      && quitAt(cycles / BatchSize)
      && (forall b :: 0 <= b < cycles / BatchSize ==> !quitAt(b))
  {
    cycles, calls := 0, [];
    var batch: nat := 0;
    quit := quitAt(batch);
    while !quit
      invariant quit == quitAt(batch)
      invariant cycles == batch * BatchSize
      invariant calls == Pairs(cycles)
      invariant forall c :: 0 <= c < cycles ==> !fault(c)
      invariant forall b :: 0 <= b < batch ==> !quitAt(b)
      invariant batch <= stop
      decreases stop - batch
    {
      var i := BatchSize;
      while i > 0
        invariant 0 <= i <= BatchSize
        invariant cycles == batch * BatchSize + (BatchSize - i)
        invariant calls == Pairs(cycles)
        invariant forall c :: 0 <= c < cycles ==> !fault(c)
      {
        calls := calls + [EmulateCycle];
        if fault(cycles) {
          // the fault is logged, the registers are printed, and the loop ends
          cycles := cycles + 1;
          quit := true;
          ret := 0;
          return;
        }
        calls := calls + [AudioUpdate];
        cycles := cycles + 1;
        i := i - 1;
      }
      batch := batch + 1;
      quit := quitAt(batch);
    }
    ret := 0;
  }
}
