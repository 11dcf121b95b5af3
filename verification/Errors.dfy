/** Compaction records and outcomes, and the errors that may carry a record or the usage spent before failing. */
module Errors {
  import opened Wrappers
  import opened Words
  import opened Transcript
  import opened Micro
  import opened Usage

  datatype Trigger = Budget | ProviderOverflow

  datatype Kind = Summary | MicroProjection | MechanicalTruncation

  datatype Record = Record(
    kind: Kind, trigger: Trigger,
    tokensBefore: uint64, tokensAfter: uint64,
    start: nat, end: nat, replacedCount: nat, retainedCount: nat,
    digest: string, summary: string, projections: seq<ToolProjection>, policyVersion: nat)

  datatype OutcomeKind = FullOnly | MicroOnly | MicroThenFull | Mechanical

  /** A successful compaction: the new transcript and the records that rebuild it. */
  datatype Compaction = Compaction(
    kind: OutcomeKind, messages: seq<Message>, record: Record,
    preApplied: Option<Record>, modelUsage: Option<SummaryUsage>)

  datatype Breakdown = Breakdown(
    maxContextTokens: uint64, reservedOutput: uint64, inputBudget: uint64,
    estimatedFixedInput: uint64, toolsTokens: uint64, messagesTokens: uint64, overflowTokens: uint64)

  datatype ContextError =
    | InvalidPolicy
    | NothingCompressible
    | ProtectedInputFillsWindow(
        estimatedInput: uint64, inputBudget: uint64, protectedUnits: nat, recentWindowUnits: nat)
    | InitialRequestOversized(breakdown: Breakdown)
    | CompressionFailed
    | EmptySummary
    | RecursiveToolCall
    | CompressionRequestTooLarge(estimatedTokens: uint64, maxContextTokens: uint64)
    | SummaryRecursionLimit
    | SummaryCallFailed(error: ContextError, usage: SummaryUsage)
    | CompressionDidNotReduce(before: uint64, after: uint64)
    | MicroAppliedThenFullFailed(record: Record, messages: seq<Message>, inner: ContextError)
    | RecordMismatch
    | StillExceeded(remaining: uint64)
    | Cancelled

  /** The errors that `attach_summary_usage` wraps together with the usage. */
  predicate Wrappable(error: ContextError) {
    error.CompressionFailed? || error.Cancelled? || error.CompressionRequestTooLarge?
    || error.SummaryRecursionLimit? || error.RecursiveToolCall?
    || error.CompressionDidNotReduce? || error.EmptySummary?
  }

  /** `attach_summary_usage`. */
  function Attach(error: ContextError, usage: Option<SummaryUsage>): ContextError {
    match usage
    case None => error
    case Some(spent) =>
      if error.SummaryCallFailed? then
        SummaryCallFailed(error.error, Merge(Some(error.usage), usage).value)
      else if Wrappable(error) then SummaryCallFailed(error, spent)
      else error
  }

  /** `context_error_is_cancelled`. */
  predicate IsCancelled(error: ContextError) {
    match error
    case Cancelled => true
    case SummaryCallFailed(wrapped, _) => IsCancelled(wrapped)
    case MicroAppliedThenFullFailed(_, _, inner) => IsCancelled(inner)
    case _ => false
  }

  /** `context_error_model_usage`. */
  function ErrorUsage(error: ContextError): Option<SummaryUsage> {
    match error
    case SummaryCallFailed(_, usage) => Some(usage)
    case MicroAppliedThenFullFailed(_, _, inner) => ErrorUsage(inner)
    case _ => None
  }

  /** `context_error_without_summary_usage`. */
  function Strip(error: ContextError): ContextError {
    match error
    case SummaryCallFailed(wrapped, _) => Strip(wrapped)
    case MicroAppliedThenFullFailed(record, messages, inner) =>
      MicroAppliedThenFullFailed(record, messages, Strip(inner))
    case _ => error
  }

  /** Attaching a usage changes neither the verdict nor the classification left after stripping. */
  lemma AttachIsTransparent(error: ContextError, usage: Option<SummaryUsage>)
    ensures IsCancelled(Attach(error, usage)) == IsCancelled(error)
    ensures Strip(Attach(error, usage)) == Strip(error)
  {
  }

  /** Stripping keeps the verdict, removes every usage and has nothing left to do afterwards. */
  lemma {:induction false} StripIsComplete(error: ContextError)
    ensures IsCancelled(Strip(error)) == IsCancelled(error)
    ensures ErrorUsage(Strip(error)) == None
    ensures Strip(Strip(error)) == Strip(error)
  {
    match error
    case SummaryCallFailed(wrapped, _) => StripIsComplete(wrapped);
    case MicroAppliedThenFullFailed(_, _, inner) => StripIsComplete(inner);
    case _ =>
  }

  /**
    What is reported after attaching. For an error that wraps no usage yet the attached usage is
    reported exactly when the error is wrappable or there was nothing to attach; a usage already
    wrapped is added to; a failed full compaction reports its inner error's usage.
   */
  lemma AttachReports(error: ContextError, usage: Option<SummaryUsage>)
    ensures error.SummaryCallFailed? ==> ErrorUsage(Attach(error, usage)) == Merge(Some(error.usage), usage)
    ensures error.MicroAppliedThenFullFailed? ==> ErrorUsage(Attach(error, usage)) == ErrorUsage(error)
    ensures !error.SummaryCallFailed? && !error.MicroAppliedThenFullFailed? ==>
      (ErrorUsage(Attach(error, usage)) == usage <==> Wrappable(error) || usage.None?)
  {
  }
}
