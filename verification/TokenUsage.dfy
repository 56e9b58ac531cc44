/** Vectors of the six native token counters. */
module TokenUsage {
  datatype Usage = Usage(
    total: int, input: int, cachedInput: int, cacheWriteInput: int, output: int, reasoningOutput: int)

  function Zero(): Usage {
    Usage(0, 0, 0, 0, 0, 0)
  }

  function Add(a: Usage, b: Usage): Usage {
    Usage(
      a.total + b.total, a.input + b.input, a.cachedInput + b.cachedInput,
      a.cacheWriteInput + b.cacheWriteInput, a.output + b.output, a.reasoningOutput + b.reasoningOutput)
  }

  function Subtract(a: Usage, b: Usage): Usage {
    Usage(
      a.total - b.total, a.input - b.input, a.cachedInput - b.cachedInput,
      a.cacheWriteInput - b.cacheWriteInput, a.output - b.output, a.reasoningOutput - b.reasoningOutput)
  }

  /** Every counter of `a` is at least that of `b`. */
  predicate AtLeast(a: Usage, b: Usage) {
    && a.total >= b.total && a.input >= b.input && a.cachedInput >= b.cachedInput
    && a.cacheWriteInput >= b.cacheWriteInput && a.output >= b.output && a.reasoningOutput >= b.reasoningOutput
  }

  predicate Advanced(a: Usage, b: Usage) {
    a.total > b.total && AtLeast(a, b)
  }

  predicate NonNegative(a: Usage) {
    AtLeast(a, Zero())
  }

  function SumUsage(s: seq<Usage>): Usage {
    if s == [] then Zero() else Add(SumUsage(s[..|s| - 1]), s[|s| - 1])
  }
}
