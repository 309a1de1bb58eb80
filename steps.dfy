/**
 * What the generated code does when it runs, as an ordered log of steps.
 * The generators of `codegen/` are modelled by the items they emit; the
 * behaviour of the emitted handlers is modelled by the steps they take.
 */
module Steps {
  import opened Text
  import opened Tracing

  /** The argument tuple of one task invocation; its values are opaque. */
  type Input = seq<int>

  datatype Step =
    | Trace(tp: TracePoint)                          // a `defmt::trace!` statement runs
    | Read(task: string, index: nat)                 // the inputs in slot `index` are moved out
    | Release(task: string, index: nat)              // `index` goes back on the task's free queue
    | Call(task: string, priority: u8, input: Input) // the task runs with a Context at `priority`

  /** The positions of task calls in a log. */
  predicate CallAt(log: seq<Step>, p: int) {
    0 <= p < |log| && log[p].Call?
  }
}
