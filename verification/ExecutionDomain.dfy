/** Executions, attempts, and the retry decision. */
module ExecutionDomain {
  import opened Common
  import opened Text

  datatype Category =
    | Validation | Authentication | Authorization | ApprovalCategory | Credential
    | TimeoutBeforeSend | TimeoutAfterSend | Network | Upstream4xx | Upstream5xx
    | CancelledCategory | UnknownCategory

  datatype ExecutionStatus = Planned | Running | Succeeded | Failed | OutcomeUnknown | Cancelled

  datatype Execution = Execution(
    id: string, tenant: string, principal: string, toolId: string, version: string, bindingId: string,
    approvalId: Option<string>, argumentsDigest: string, policyVersion: string, policyReason: string,
    sideEffect: SideEffect, idempotencyKey: Option<string>,
    status: ExecutionStatus, plannedAt: Time, startedAt: Option<Time>, finishedAt: Option<Time>,
    errorCode: Option<string>, errorCategory: Option<Category>, attemptCount: int)
  {
    predicate Terminal() {
      status in {Succeeded, Failed, OutcomeUnknown, Cancelled}
    }

    predicate HasError() {
      errorCode.Some? || errorCategory.Some?
    }

    /** The text checks of the constructor; no transition changes a text field. */
    predicate Named() {
      NoneBlank([id, tenant, principal, toolId, version, bindingId, argumentsDigest, policyVersion, policyReason])
    }

    /** The other checks of the constructor, which every replacement runs again. */
    predicate WellFormed() {
      && (status.Planned? ==> startedAt.None? && finishedAt.None?)
      && (status.Running? ==> startedAt.Some?)
      && (Terminal() ==> finishedAt.Some?)
      && (status in {Planned, Running, Succeeded} ==> !HasError())
      && (status in {Failed, OutcomeUnknown, Cancelled} ==> errorCode.Some? && errorCategory.Some?)
      && attemptCount >= 0
    }
  }

  /** How a call ends; a failure may leave the upstream outcome unknown. */
  datatype ExecutionEnd = Succeed | Cancel | Fail(code: string, category: Category, outcomeUnknown: bool)

  function EndedStatus(end: ExecutionEnd): ExecutionStatus {
    match end
    case Succeed => Succeeded
    case Cancel => Cancelled
    case Fail(_, _, unknown) => if unknown then OutcomeUnknown else Failed
  }

  /** `succeed`, `cancel`, `fail` and `mark_unknown`. */
  function End(x: Execution, end: ExecutionEnd, now: Time): Execution {
    var ended := x.(status := EndedStatus(end), finishedAt := Some(now));
    match end
    case Succeed => ended
    case Cancel => ended.(errorCode := Some("execution_cancelled"), errorCategory := Some(CancelledCategory))
    case Fail(code, category, unknown) =>
      ended.(errorCode := Some(code), errorCategory := Some(if unknown then UnknownCategory else category))
  }

  datatype AttemptStatus = InFlight | Done | Broken | Unclear | Aborted

  datatype Attempt = Attempt(
    id: string, tenant: string, executionId: string, number: int, status: AttemptStatus,
    startedAt: Time, finishedAt: Option<Time>,
    errorCode: Option<string>, errorCategory: Option<Category>, upstreamStatus: Option<int>)
  {
    predicate HasError() {
      errorCode.Some? || errorCategory.Some?
    }

    predicate Named() {
      NoneBlank([id, tenant, executionId])
    }

    predicate WellFormed() {
      && number > 0
      && ValidStatus(upstreamStatus)
      && (status.InFlight? <==> finishedAt.None?)
      && (status in {InFlight, Done} ==> !HasError())
      && (status in {Broken, Unclear, Aborted} ==> errorCode.Some? && errorCategory.Some?)
    }
  }

  predicate ValidStatus(upstreamStatus: Option<int>) {
    upstreamStatus.Some? ==> 100 <= upstreamStatus.value <= 599
  }

  datatype AttemptEnd =
    | AttemptSucceeded(upstreamStatus: Option<int>)
    | AttemptCancelled
    | AttemptFailed(code: string, category: Category, outcomeUnknown: bool, upstreamStatus: Option<int>)

  /** `succeed`, `cancel` and `fail` of an attempt. */
  function EndAttempt(a: Attempt, end: AttemptEnd, now: Time): Attempt {
    var ended := a.(finishedAt := Some(now));
    match end
    case AttemptSucceeded(upstream) => ended.(status := Done, upstreamStatus := upstream)
    case AttemptCancelled =>
      ended.(status := Aborted, errorCode := Some("attempt_cancelled"), errorCategory := Some(CancelledCategory))
    case AttemptFailed(code, category, unknown, upstream) =>
      ended.(status := if unknown then Unclear else Broken,
             errorCode := Some(code), errorCategory := Some(category), upstreamStatus := upstream)
  }

  // ------------------------------------------------------------------ retry

  datatype Disposition = Retry | DoNotRetry | RequireReconciliation

  function RetryDisposition(sideEffect: SideEffect, category: Category, hasKey: bool): Disposition {
    if category in {Validation, Authentication, Authorization, ApprovalCategory, Credential} then DoNotRetry
    else if category in {Upstream4xx, CancelledCategory} then DoNotRetry
    else if category in {TimeoutAfterSend, UnknownCategory} && sideEffect in {NonIdempotentWrite, UnknownEffect} then
      RequireReconciliation
    else if category !in {TimeoutBeforeSend, TimeoutAfterSend, Network, Upstream5xx, UnknownCategory} then
      DoNotRetry
    else if sideEffect.ReadOnly? then Retry
    else if sideEffect.IdempotentWrite? && hasKey then Retry
    else DoNotRetry
  }

  /** Only these calls may ever be sent twice. */
  predicate Repeatable(sideEffect: SideEffect, hasKey: bool) {
    sideEffect.ReadOnly? || (sideEffect.IdempotentWrite? && hasKey)
  }

  predicate Transient(category: Category) {
    category in {TimeoutBeforeSend, TimeoutAfterSend, Network, Upstream5xx, UnknownCategory}
  }

  /** A retry needs a repeatable call and a transport-level failure, and nothing else. */
  lemma RetryOnlyRepeatable(sideEffect: SideEffect, category: Category, hasKey: bool)
    ensures RetryDisposition(sideEffect, category, hasKey).Retry? <==>
            Repeatable(sideEffect, hasKey) && Transient(category)
    ensures sideEffect.ReadOnly? ==> !RetryDisposition(sideEffect, category, hasKey).RequireReconciliation?
  {
  }
}
