/** The short transactions of ExecutionLifecycle and of the approval use cases, each in one unit of work. */
module Lifecycle {
  import opened Common
  import opened ExecutionDomain
  import opened ApprovalDomain
  import opened GatewayStore
  import opened UnitsOfWork

  /** `consume_locked_approval`, within the unit of work of its caller. */
  method ConsumeLockedApproval(uow: UnitOfWork, call: Call, approvalId: string, now: Time)
    returns (r: Result<Approval, Error>)
    modifies uow
    ensures (uow.working, r) == ConsumeLocked(old(uow.working), call, approvalId, now)
  {
    var approval := uow.GetApprovalForUpdate(call.tenant, approvalId);
    if approval.None? { return Err(ApprovalNotFound); }
    var a := approval.value;
    var unusable := ConsumableStatus(a.status);
    if unusable.Some? { return Err(unusable.value); }
    if now >= a.expiresAt {
      var expired := Expire(a, now);
      if expired.Err? { return Err(Invalid); }
      uow.SaveApproval(expired.value);
      return Err(ApprovalExpired);
    }
    if !Covers(a, call) { return Err(ApprovalMismatch); }
    var consumed := Consume(a, call, now);
    if consumed.Err? { return Err(Invalid); }
    uow.SaveApproval(consumed.value);
    return Ok(consumed.value);
  }

  class ApprovalUseCases {
    const store: Store

    constructor (store: Store)
      ensures this.store == store
    {
      this.store := store;
    }

    method Request(cmd: RequestCommand, ttl: int, id: string, auditId: string, now: Time)
      returns (r: Result<Approval, Error>)
      modifies store
      ensures (store.db, r) == RequestTx(old(store.db), cmd, ttl, id, auditId, now)
    {
      var call := cmd.call;
      var a :=
        Approval(id, call.tenant, call.principal, cmd.toolId, call.version, call.argumentsDigest, call.policyVersion,
                        Pending, now, now + ttl, call.idempotencyKey, None, None, None);
      if !a.Named() || !a.WellFormed() { return Err(Invalid); }
      var audit := Audit(auditId, call.tenant, call.principal, ToolCall, call.version, ApprovalRequired, now,
                         call.argumentsDigest, call.policyVersion, Some(cmd.policyReason), None, None);
      var uow := new UnitOfWork.Enter(store);
      var error := uow.AddApproval(a);
      if error.Some? { return Err(error.value); }
      error := uow.AppendAudit(audit);
      if error.Some? { return Err(error.value); }
      uow.Commit();
      return Ok(a);
    }

    method DecideOn(tenant: string, approvalId: string, approver: string, approved: bool, auditId: string, now: Time)
      returns (r: Result<Approval, Error>)
      modifies store
      ensures (store.db, r) == DecideTx(old(store.db), tenant, approvalId, approver, approved, auditId, now)
    {
      var uow := new UnitOfWork.Enter(store);
      var approval := uow.GetApprovalForUpdate(tenant, approvalId);
      if approval.None? { return Err(ApprovalNotFound); }
      var a := approval.value;
      if a.status.Expired? { return Err(ApprovalExpired); }
      if !a.status.Pending? { return Err(ApprovalInvalidState); }
      if now >= a.expiresAt {
        var expired := Expire(a, now);
        if expired.Err? { return Err(Invalid); }
        uow.SaveApproval(expired.value);
        uow.Commit();
        return Err(ApprovalExpired);
      }
      var decided := Decide(a, approver, approved, now);
      if decided.Err? { return Err(Invalid); }
      uow.SaveApproval(decided.value);
      var audit := Audit(auditId, tenant, approver, ApprovalDecision, a.id, if approved then Allowed else Denied, now,
                         a.argumentsDigest, a.policyVersion,
                         Some(if approved then "approval_approved" else "approval_rejected"), None, None);
      var error := uow.AppendAudit(audit);
      if error.Some? { return Err(error.value); }
      uow.Commit();
      return Ok(decided.value);
    }

    method ConsumeAlone(call: Call, approvalId: string, now: Time) returns (r: Result<Approval, Error>)
      modifies store
      ensures (store.db, r) == ConsumeTx(old(store.db), call, approvalId, now)
    {
      var uow := new UnitOfWork.Enter(store);
      r := ConsumeLockedApproval(uow, call, approvalId, now);
      if r.Ok? || r.error.ApprovalExpired? {
        uow.Commit();
      }
    }
  }

  class ExecutionLifecycle {
    const store: Store

    constructor (store: Store)
      ensures this.store == store
    {
      this.store := store;
    }

    /** The answer of the idempotency lookup is returned for the specification: any claimant of the key will do. */
    method Plan(cmd: PlanCommand, id: string, auditId: string, now: Time)
      returns (r: Result<Execution, Error>, ghost seen: Option<Execution>)
      modifies store
      ensures (store.db, r) == PlanTx(old(store.db), cmd, seen, id, auditId, now)
      ensures cmd.call.idempotencyKey.Some? && NewExecution(cmd, id, now).Named() ==>
                IsLookup(old(store.db).executions, ScopeOf(NewExecution(cmd, id, now)), seen)
    {
      seen := None;
      var x := NewExecution(cmd, id, now);
      if !x.Named() || !x.WellFormed() { return Err(Invalid), seen; }
      var uow := new UnitOfWork.Enter(store);
      if cmd.call.idempotencyKey.Some? {
        var existing := uow.GetByIdempotencyKey(ScopeOf(x));
        seen := existing;
        if existing.Some? { return Err(Reuse(existing.value, cmd.call.argumentsDigest)), seen; }
      }
      if cmd.approvalId.Some? {
        var consumed := ConsumeLockedApproval(uow, cmd.call, cmd.approvalId.value, now);
        if consumed.Err? {
          if consumed.error.ApprovalExpired? { uow.Commit(); }
          return Err(consumed.error), seen;
        }
      }
      var error := uow.AddExecution(x);
      if error.Some? { return Err(error.value), seen; }
      error := uow.AppendAudit(ExecutionAudit(x, Allowed, auditId, now));
      if error.Some? { return Err(error.value), seen; }
      uow.Commit();
      return Ok(x), seen;
    }

    method StartAttempt(tenant: string, executionId: string, attemptId: string, now: Time)
      returns (r: Result<Attempt, Error>)
      modifies store
      ensures (store.db, r) == StartAttemptTx(old(store.db), tenant, executionId, attemptId, now)
    {
      var uow := new UnitOfWork.Enter(store);
      var execution := uow.GetExecutionForUpdate(tenant, executionId);
      if execution.None? { return Err(ExecutionNotFound); }
      if !execution.value.status.Running? { return Err(InvalidExecutionState); }
      var registered := execution.value.(attemptCount := execution.value.attemptCount + 1);
      var a := Attempt(attemptId, tenant, executionId, registered.attemptCount, InFlight, now, None, None, None, None);
      if !registered.WellFormed() || !a.Named() || !a.WellFormed() { return Err(Invalid); }
      uow.SaveExecution(registered);
      var error := uow.AddAttempt(a);
      if error.Some? { return Err(error.value); }
      uow.Commit();
      return Ok(a);
    }

    method FinishAttempt(tenant: string, attemptId: string, end: AttemptEnd, now: Time)
      returns (r: Result<Attempt, Error>)
      modifies store
      ensures (store.db, r) == FinishAttemptTx(old(store.db), tenant, attemptId, end, now)
    {
      var uow := new UnitOfWork.Enter(store);
      var attempt := uow.GetAttemptForUpdate(tenant, attemptId);
      if attempt.None? { return Err(AttemptNotFound); }
      if !attempt.value.status.InFlight? { return Err(InvalidExecutionState); }
      var terminal := EndAttempt(attempt.value, end, now);
      if !terminal.WellFormed() { return Err(Invalid); }
      uow.SaveAttempt(terminal);
      uow.Commit();
      return Ok(terminal);
    }

    method Finish(tenant: string, executionId: string, end: ExecutionEnd, auditId: string, now: Time)
      returns (r: Result<Execution, Error>)
      modifies store
      ensures (store.db, r) == FinishTx(old(store.db), tenant, executionId, end, auditId, now)
    {
      var uow := new UnitOfWork.Enter(store);
      var execution := uow.GetExecutionForUpdate(tenant, executionId);
      if execution.None? { return Err(ExecutionNotFound); }
      if !execution.value.status.Running? { return Err(InvalidExecutionState); }
      var terminal := End(execution.value, end, now);
      if !terminal.WellFormed() { return Err(Invalid); }
      uow.SaveExecution(terminal);
      var error := uow.AppendAudit(ExecutionAudit(terminal, EndOutcome(end), auditId, now));
      if error.Some? { return Err(error.value); }
      uow.Commit();
      return Ok(terminal);
    }

    method RecordCallDecision(call: Call, reasonCode: string, outcome: AuditOutcome, auditId: string, now: Time)
      returns (r: Result<(), Error>)
      modifies store
      ensures (store.db, r) == RecordTx(old(store.db), call, reasonCode, outcome, auditId, now)
    {
      var uow := new UnitOfWork.Enter(store);
      var error := uow.AppendAudit(Audit(auditId, call.tenant, call.principal, ToolCall, call.version, outcome, now,
                                         call.argumentsDigest, call.policyVersion, Some(reasonCode), None, None));
      if error.Some? { return Err(error.value); }
      uow.Commit();
      return Ok(());
    }
  }
}
