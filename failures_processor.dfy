/**
 * The failures processor the exporter registers while it opens and exports a document: one
 * pass over the failure messages of a failed commit that rolls back after three attempted
 * resolution types, resolves the first error that names failing elements, deletes the first
 * warning, and otherwise lets the commit continue.
 */
module OpenDocumentFailures {

  /** The host's failure severities. */
  datatype FailureSeverity = NoSeverity | Warning | Error | DocumentCorruption

  /** The host's decisions a failures processor can return. */
  datatype FailureProcessingResult = Continue | ProceedWithCommit | ProceedWithRollBack | WaitForUserInput

  /**
   * What the processor reads from one failure message: how many resolution types have already
   * been attempted for it, the elements it names, and whether deleting them is one of its
   * resolutions.
   */
  datatype FailureMessage = FailureMessage(
    attemptedResolutionTypes: nat,
    failingElementIds: seq<nat>,
    hasDeleteElementsResolution: bool)

  /** The changes the processor asks of the accessor, naming the message by its position. */
  datatype FailureAction =
    | SetDeleteElementsResolution(message: nat)
    | ResolveFailure(message: nat)
    | DeleteWarning(message: nat)

  /** `MAX_RESOLUTION_ATTEMPTS`. */
  const MaxResolutionAttempts: nat := 3

  /** The decision for one pass: the result returned and the actions taken, in order. */
  datatype Decision = Decision(result: FailureProcessingResult, actions: seq<FailureAction>)

  /** A message the pass acts on and returns at, given the accessor's severity. */
  predicate Handled(m: FailureMessage, severity: FailureSeverity)
  {
    (severity == Error && |m.failingElementIds| > 0) || severity == Warning
  }

  /** A message the pass stops at: over the threshold, or handled. */
  predicate Stops(m: FailureMessage, severity: FailureSeverity)
  {
    m.attemptedResolutionTypes >= MaxResolutionAttempts || Handled(m, severity)
  }

  /** The decision the pass takes at message `i` when it stops there. */
  function StopDecision(m: FailureMessage, severity: FailureSeverity, i: nat): (d: Decision)
    requires Stops(m, severity)
    ensures d.result == ProceedWithRollBack <==> m.attemptedResolutionTypes >= MaxResolutionAttempts
    ensures d.result != ProceedWithRollBack ==> d.result == ProceedWithCommit
    ensures d.result == ProceedWithRollBack ==> d.actions == []
  {
    if m.attemptedResolutionTypes >= MaxResolutionAttempts then Decision(ProceedWithRollBack, [])
    else if severity == Error then
      Decision(ProceedWithCommit,
        (if m.hasDeleteElementsResolution then [SetDeleteElementsResolution(i)] else []) + [ResolveFailure(i)])
    else Decision(ProceedWithCommit, [DeleteWarning(i)])
  }

  /** The decision of the pass from message `i` on. */
  function Scan(messages: seq<FailureMessage>, severity: FailureSeverity, i: nat): Decision
    decreases |messages| - i
  {
    if i >= |messages| then Decision(Continue, [])
    else if Stops(messages[i], severity) then StopDecision(messages[i], severity, i)
    else Scan(messages, severity, i + 1)
  }

  /**
   * The failures accessor of one commit: its messages and severity are fixed for the pass, and
   * the changes the processor makes to it are recorded in order.
   */
  class FailuresAccessor {
    const messages: seq<FailureMessage>
    const severity: FailureSeverity
    var actions: seq<FailureAction>

    constructor (messages: seq<FailureMessage>, severity: FailureSeverity)
      ensures this.messages == messages && this.severity == severity && actions == []
    {
      this.messages := messages;
      this.severity := severity;
      actions := [];
    }

    /** `FailureMessageAccessor.SetCurrentResolutionType(DeleteElements)` on message `i`. */
    method SetCurrentResolutionTypeToDeleteElements(i: nat)
      modifies this
      ensures actions == old(actions) + [SetDeleteElementsResolution(i)]
    {
      actions := actions + [SetDeleteElementsResolution(i)];
    }

    /** `FailuresAccessor.ResolveFailure` on message `i`. */
    method Resolve(i: nat)
      modifies this
      ensures actions == old(actions) + [ResolveFailure(i)]
    {
      actions := actions + [ResolveFailure(i)];
    }

    /** `FailuresAccessor.DeleteWarning` on message `i`. */
    method Delete(i: nat)
      modifies this
      ensures actions == old(actions) + [DeleteWarning(i)]
    {
      actions := actions + [DeleteWarning(i)];
    }
  }

  /**
   * `ProcessFailures`: the pass over `data`'s messages. Its result and the changes it makes to
   * the accessor are those of `Scan` from the first message.
   */
  method ProcessFailures(data: FailuresAccessor) returns (r: FailureProcessingResult)
    modifies data
    ensures r == Scan(data.messages, data.severity, 0).result
    ensures data.actions == old(data.actions) + Scan(data.messages, data.severity, 0).actions
  {
    var failures := data.messages;
    var hasError := false;
    var hasWarning := false;
    var i := 0;
    while i < |failures|
      invariant 0 <= i <= |failures|
      invariant !hasError && !hasWarning
      invariant Scan(failures, data.severity, 0) == Scan(failures, data.severity, i)
      invariant data.actions == old(data.actions)
    {
      var f := failures[i];
      if f.attemptedResolutionTypes >= MaxResolutionAttempts {
        return ProceedWithRollBack;
      }
      var fseverity := data.severity;
      if fseverity == Error {
        if |f.failingElementIds| > 0 {
          if f.hasDeleteElementsResolution {
            data.SetCurrentResolutionTypeToDeleteElements(i);
          }
          hasError := true;
          data.Resolve(i);
        }
      }
      if fseverity == Warning {
        hasWarning := true;
        data.Delete(i);
      }
      if hasWarning || hasError {
        return ProceedWithCommit;
      }
      i := i + 1;
    }
    return Continue;
  }

  // ---------------------------------------------------------------------------------------
  // Properties of the pass

  /** The pass is decided by the first message it stops at; the messages before it change nothing. */
  lemma {:induction false} ScanDecidedByFirstStop(messages: seq<FailureMessage>, severity: FailureSeverity, i: nat, j: nat)
    requires i <= j < |messages| && Stops(messages[j], severity)
    requires forall k :: i <= k < j ==> !Stops(messages[k], severity)
    ensures Scan(messages, severity, i) == StopDecision(messages[j], severity, j)
    decreases j - i
  {
    if i < j {
      ScanDecidedByFirstStop(messages, severity, i + 1, j);
    }
  }

  /** The pass continues exactly when it stops at no message; it then changes nothing. */
  lemma {:induction false} ScanContinuesIff(messages: seq<FailureMessage>, severity: FailureSeverity, i: nat)
    ensures Scan(messages, severity, i).result == Continue
        <==> forall k :: i <= k < |messages| ==> !Stops(messages[k], severity)
    ensures Scan(messages, severity, i).result == Continue ==> Scan(messages, severity, i).actions == []
    decreases |messages| - i
  {
    if i < |messages| && !Stops(messages[i], severity) {
      ScanContinuesIff(messages, severity, i + 1);
    }
  }

  /** An empty list of messages lets the commit continue. */
  lemma NoMessagesContinue(severity: FailureSeverity)
    ensures Scan([], severity, 0) == Decision(Continue, [])
  {
  }

  /**
   * The pass acts on at most one message: every action names the same message, and that
   * message is the first one the pass stops at.
   */
  lemma {:induction false} ScanActsOnOneMessage(messages: seq<FailureMessage>, severity: FailureSeverity, i: nat)
    ensures |Scan(messages, severity, i).actions| <= 2
    ensures forall a :: a in Scan(messages, severity, i).actions ==>
      i <= a.message < |messages| && Stops(messages[a.message], severity)
      && forall k :: i <= k < a.message ==> !Stops(messages[k], severity)
    decreases |messages| - i
  {
    if i < |messages| && !Stops(messages[i], severity) {
      ScanActsOnOneMessage(messages, severity, i + 1);
    }
  }

  /** A message over the threshold rolls back when the pass reaches it, whatever the severity. */
  lemma ThresholdRollsBack(messages: seq<FailureMessage>, severity: FailureSeverity, j: nat)
    requires j < |messages| && messages[j].attemptedResolutionTypes >= MaxResolutionAttempts
    requires forall k :: 0 <= k < j ==> !Stops(messages[k], severity)
    ensures Scan(messages, severity, 0) == Decision(ProceedWithRollBack, [])
  {
    ScanDecidedByFirstStop(messages, severity, 0, j);
  }

  /**
   * Under Error severity the first message that names failing elements is resolved, with the
   * delete-elements resolution chosen first only when the message offers it, and the commit
   * proceeds; an Error message without failing elements is passed over.
   */
  lemma ErrorResolvesFirstFailingElements(messages: seq<FailureMessage>, j: nat)
    requires j < |messages| && messages[j].attemptedResolutionTypes < MaxResolutionAttempts
    requires |messages[j].failingElementIds| > 0
    requires forall k :: 0 <= k < j ==>
      messages[k].attemptedResolutionTypes < MaxResolutionAttempts && messages[k].failingElementIds == []
    ensures Scan(messages, Error, 0).result == ProceedWithCommit
    ensures messages[j].hasDeleteElementsResolution ==>
      Scan(messages, Error, 0).actions == [SetDeleteElementsResolution(j), ResolveFailure(j)]
    ensures !messages[j].hasDeleteElementsResolution ==> Scan(messages, Error, 0).actions == [ResolveFailure(j)]
  {
    ScanDecidedByFirstStop(messages, Error, 0, j);
  }

  /**
   * Under Warning severity only the first message is looked at: it rolls back over the
   * threshold, and otherwise only that warning is deleted and the commit proceeds.
   */
  lemma OnlyFirstWarningDeleted(messages: seq<FailureMessage>)
    requires messages != []
    ensures messages[0].attemptedResolutionTypes >= MaxResolutionAttempts ==>
      Scan(messages, Warning, 0) == Decision(ProceedWithRollBack, [])
    ensures messages[0].attemptedResolutionTypes < MaxResolutionAttempts ==>
      Scan(messages, Warning, 0) == Decision(ProceedWithCommit, [DeleteWarning(0)])
  {
  }

  /** With any other severity nothing is handled: the pass continues or rolls back, and changes nothing. */
  lemma {:induction false} OtherSeveritiesChangeNothing(messages: seq<FailureMessage>, severity: FailureSeverity, i: nat)
    requires severity == NoSeverity || severity == DocumentCorruption
    ensures Scan(messages, severity, i).actions == []
    ensures Scan(messages, severity, i).result == Continue || Scan(messages, severity, i).result == ProceedWithRollBack
    decreases |messages| - i
  {
    if i < |messages| && !Stops(messages[i], severity) {
      OtherSeveritiesChangeNothing(messages, severity, i + 1);
    }
  }
}
