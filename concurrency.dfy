/**
 The concurrency and execution policies of AsyncNinja and the number of
 threads each allows (Sources/AsyncNinja/Concurrency.swift). The processor
 count that `.auto` asks the system for is a parameter here.
 */
module Concurrency {

  /** How many items may be worked on at once. */
  datatype Concurrency = Unrestricted | Restricted(n: int) | Auto

  /** Whether items are worked on concurrently or one after the other. */
  datatype Execution = Concurent(concurrency: Concurrency) | Sequential

  /** The thread cap of `.unrestricted`. */
  const UnrestrictedThreads: int := 64

  /** `.concurent()` with its default argument. */
  function DefaultConcurent(): (e: Execution)
    ensures e.Concurent? && e.concurrency == Auto
  {
    Concurent(Auto)
  }

  /** `Concurrency.maxThreads()`, with `coresCount` standing for the processor count. */
  function MaxThreads(c: Concurrency, coresCount: int): (r: int)
    ensures c == Unrestricted ==> r == 64
    ensures c.Restricted? ==> r == c.n
    ensures c == Auto ==> r == coresCount
  {
    match c
    case Unrestricted => UnrestrictedThreads
    case Restricted(n) => n
    case Auto => coresCount
  }

  /** `Execution.maxThreads()`: one thread when sequential, otherwise the
      concurrency policy's own cap. */
  function ExecutionMaxThreads(e: Execution, coresCount: int): (r: int)
    ensures e == Sequential ==> r == 1
    ensures e.Concurent? ==> r == MaxThreads(e.concurrency, coresCount)
  {
    match e
    case Concurent(c) => MaxThreads(c, coresCount)
    case Sequential => 1
  }

  /** With the default policy the cap is the processor count; on a machine with
      at least one processor, sequential execution allows no more threads than
      any concurrent one whose restriction, if any, allows at least one. */
  lemma DefaultExecutionUsesCores(coresCount: int)
    ensures ExecutionMaxThreads(DefaultConcurent(), coresCount) == coresCount
    ensures coresCount >= 1 ==>
      forall c: Concurrency :: (c.Restricted? ==> c.n >= 1) ==>
        ExecutionMaxThreads(Sequential, coresCount) <= ExecutionMaxThreads(Concurent(c), coresCount)
  {
  }
}
