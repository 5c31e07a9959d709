/**
 The four stores of the gateway and its transactions, each as a function from
 the store and the readings of clock and id generator to the new store and the
 outcome.  A transaction that raises leaves the store as it was, except where
 the code commits before raising (an expiry).
 */
module GatewayStore {
  import opened Common
  import opened Text
  import opened ExecutionDomain
  import opened ApprovalDomain

  datatype AuditOutcome = Allowed | Denied | ApprovalRequired | CallSucceeded | CallFailed | CallUnknown | CallCancelled

  datatype AuditAction = ToolCall | ApprovalDecision

  /** What the audit of an execution records about it. */
  datatype Evidence = Evidence(sideEffect: SideEffect, status: ExecutionStatus, attemptCount: int)

  datatype Audit = Audit(
    id: string, tenant: string, actor: string, action: AuditAction, resourceId: string, outcome: AuditOutcome,
    occurredAt: Time, argumentsDigest: string, policyVersion: string, reasonCode: Option<string>,
    executionId: Option<string>, evidence: Option<Evidence>)
  {
    predicate WellFormed() {
      !Blank(id) && !Blank(tenant) && !Blank(actor) && !Blank(resourceId)
    }
  }

  datatype Db = Db(executions: map<string, Execution>, attempts: map<string, Attempt>,
                   approvals: map<string, Approval>, audits: seq<Audit>)

  const EMPTY := Db(map[], map[], map[], [])

  datatype Error =
    | Invalid | DuplicateId
    | ExecutionNotFound | AttemptNotFound | InvalidExecutionState
    | ApprovalNotFound | ApprovalPending | ApprovalRejected | ApprovalExpired | ApprovalAlreadyConsumed
    | ApprovalMismatch | ApprovalInvalidState
    | IdempotencyConflict(existing: string) | IdempotencyInProgress(existing: string)
    | IdempotencyAlreadyCompleted(existing: string) | IdempotencyOutcomeUnknown(existing: string)
    | IdempotencyPreviousFailed(existing: string)
    | IdempotencyRace

  // ------------------------------------------------------------ repositories

  function AddExecution(db: Db, x: Execution): Result<Db, Error> {
    if x.id in db.executions then Err(DuplicateId)
    else if x.idempotencyKey.Some? && Claimed(db.executions, ScopeOf(x)) then Err(IdempotencyRace)
    else Ok(db.(executions := db.executions[x.id := x]))
  }

  function GetExecution(db: Db, tenant: string, id: string): Option<Execution> {
    if id in db.executions && db.executions[id].tenant == tenant then Some(db.executions[id]) else None
  }

  function AddAttempt(db: Db, a: Attempt): Result<Db, Error> {
    if a.id in db.attempts || NumberTaken(db.attempts, a.executionId, a.number) then Err(DuplicateId)
    else Ok(db.(attempts := db.attempts[a.id := a]))
  }

  predicate NumberTaken(attempts: map<string, Attempt>, executionId: string, number: int) {
    exists k <- attempts :: attempts[k].executionId == executionId && attempts[k].number == number
  }

  function AddApproval(db: Db, a: Approval): Result<Db, Error> {
    if a.id in db.approvals then Err(DuplicateId) else Ok(db.(approvals := db.approvals[a.id := a]))
  }

  function GetApproval(db: Db, tenant: string, id: string): Option<Approval> {
    if id in db.approvals && db.approvals[id].tenant == tenant then Some(db.approvals[id]) else None
  }

  function AppendAudit(db: Db, audit: Audit): Result<Db, Error> {
    if !audit.WellFormed() then Err(Invalid)
    else if exists a <- db.audits :: a.id == audit.id then Err(DuplicateId)
    else Ok(db.(audits := db.audits + [audit]))
  }

  // ------------------------------------------------------- idempotency scope

  /** What the partial unique index covers: one claim per tenant, principal, tool version and key. */
  datatype Scope = Scope(tenant: string, principal: string, version: string, key: Option<string>)

  function ScopeOf(x: Execution): Scope {
    Scope(x.tenant, x.principal, x.version, x.idempotencyKey)
  }

  predicate Claimed(executions: map<string, Execution>, scope: Scope) {
    exists e <- executions :: ScopeOf(executions[e]) == scope
  }

  /** An answer of `get_by_idempotency_key` on these executions. */
  predicate IsLookup(executions: map<string, Execution>, scope: Scope, seen: Option<Execution>) {
    match seen
    case None => !Claimed(executions, scope)
    case Some(x) => ScopeOf(x) == scope && exists e <- executions :: executions[e] == x
  }

  function Reuse(existing: Execution, argumentsDigest: string): Error {
    if existing.argumentsDigest != argumentsDigest then IdempotencyConflict(existing.id)
    else if existing.status in {Planned, Running} then IdempotencyInProgress(existing.id)
    else if existing.status.Succeeded? then IdempotencyAlreadyCompleted(existing.id)
    else if existing.status.OutcomeUnknown? then IdempotencyOutcomeUnknown(existing.id)
    else IdempotencyPreviousFailed(existing.id)
  }

  // --------------------------------------------------------------- approvals

  /** `_require_consumable_status` */
  function ConsumableStatus(status: ApprovalStatus): Option<Error> {
    match status
    case Approved => None
    case Pending => Some(ApprovalPending)
    case Rejected => Some(ApprovalRejected)
    case Expired => Some(ApprovalExpired)
    case Consumed => Some(ApprovalAlreadyConsumed)
  }

  /** `consume_locked_approval`: the working store it leaves, and its outcome. */
  function ConsumeLocked(db: Db, call: Call, approvalId: string, now: Time): (Db, Result<Approval, Error>) {
    match GetApproval(db, call.tenant, approvalId)
    case None => (db, Err(ApprovalNotFound))
    case Some(a) =>
      if ConsumableStatus(a.status).Some? then (db, Err(ConsumableStatus(a.status).value))
      else if now >= a.expiresAt then
        (match Expire(a, now)
         case Err(_) => (db, Err(Invalid))
         case Ok(expired) => (db.(approvals := db.approvals[a.id := expired]), Err(ApprovalExpired)))
      else if !Covers(a, call) then (db, Err(ApprovalMismatch))
      else
        match Consume(a, call, now)
        case Err(_) => (db, Err(Invalid))
        case Ok(consumed) => (db.(approvals := db.approvals[a.id := consumed]), Ok(consumed))
  }

  /** `ConsumeApproval` */
  function ConsumeTx(db: Db, call: Call, approvalId: string, now: Time): (Db, Result<Approval, Error>) {
    var (working, outcome) := ConsumeLocked(db, call, approvalId, now);
    if outcome.Ok? || outcome.error.ApprovalExpired? then (working, outcome) else (db, outcome)
  }

  datatype RequestCommand = RequestCommand(call: Call, toolId: string, policyReason: string)

  /** `RequestApproval` */
  function RequestTx(db: Db, cmd: RequestCommand, ttl: int, id: string, auditId: string, now: Time)
    : (Db, Result<Approval, Error>)
  {
    var call := cmd.call;
    var a :=
      Approval(id, call.tenant, call.principal, cmd.toolId, call.version, call.argumentsDigest, call.policyVersion,
                      Pending, now, now + ttl, call.idempotencyKey, None, None, None);
    if !a.Named() || !a.WellFormed() then (db, Err(Invalid))
    else
      var audit := Audit(auditId, call.tenant, call.principal, ToolCall, call.version, ApprovalRequired, now,
                         call.argumentsDigest, call.policyVersion, Some(cmd.policyReason), None, None);
      match AddApproval(db, a)
      case Err(e) => (db, Err(e))
      case Ok(working) =>
        match AppendAudit(working, audit)
        case Err(e) => (db, Err(e))
        case Ok(committed) => (committed, Ok(a))
  }

  /** `DecideApproval` */
  function DecideTx(db: Db, tenant: string, approvalId: string, approver: string, approved: bool, auditId: string,
                    now: Time)
    : (Db, Result<Approval, Error>)
  {
    match GetApproval(db, tenant, approvalId)
    case None => (db, Err(ApprovalNotFound))
    case Some(a) =>
      if a.status.Expired? then (db, Err(ApprovalExpired))
      else if !a.status.Pending? then (db, Err(ApprovalInvalidState))
      else if now >= a.expiresAt then
        (match Expire(a, now)
         case Err(_) => (db, Err(Invalid))
         case Ok(expired) => (db.(approvals := db.approvals[a.id := expired]), Err(ApprovalExpired)))
      else
        match Decide(a, approver, approved, now)
        case Err(_) => (db, Err(Invalid))
        case Ok(decided) =>
          var audit :=
            Audit(auditId, tenant, approver, ApprovalDecision, a.id, if approved then Allowed else Denied, now,
                             a.argumentsDigest, a.policyVersion,
                             Some(if approved then "approval_approved" else "approval_rejected"), None, None);
          match AppendAudit(db.(approvals := db.approvals[a.id := decided]), audit)
          case Err(e) => (db, Err(e))
          case Ok(committed) => (committed, Ok(decided))
  }

  // -------------------------------------------------------------- executions

  datatype PlanCommand = PlanCommand(
    call: Call, toolId: string, bindingId: string, policyReason: string, sideEffect: SideEffect,
    approvalId: Option<string>)

  /** A planned execution, started at once. */
  function NewExecution(cmd: PlanCommand, id: string, now: Time): Execution {
    Execution(id, cmd.call.tenant, cmd.call.principal, cmd.toolId, cmd.call.version, cmd.bindingId, cmd.approvalId,
              cmd.call.argumentsDigest, cmd.call.policyVersion, cmd.policyReason, cmd.sideEffect,
              cmd.call.idempotencyKey, Running, now, Some(now), None, None, None, 0)
  }

  /** `_execution_audit` */
  function ExecutionAudit(x: Execution, outcome: AuditOutcome, auditId: string, now: Time): Audit {
    Audit(auditId, x.tenant, x.principal, ToolCall, x.version, outcome, now, x.argumentsDigest, x.policyVersion,
          if outcome in {CallFailed, CallUnknown, CallCancelled} then x.errorCode else Some(x.policyReason),
          Some(x.id), Some(Evidence(x.sideEffect, x.status, x.attemptCount)))
  }

  /**
   `plan`.  The answer of the idempotency lookup is an input: with a database
   it may have been read before other plans committed.  The unique index is
   checked where the execution is added.
   */
  function PlanTx(db: Db, cmd: PlanCommand, seen: Option<Execution>, id: string, auditId: string, now: Time)
    : (Db, Result<Execution, Error>)
  {
    var x := NewExecution(cmd, id, now);
    if !x.Named() || !x.WellFormed() then (db, Err(Invalid))
    else if cmd.call.idempotencyKey.Some? && seen.Some? then (db, Err(Reuse(seen.value, cmd.call.argumentsDigest)))
    else match cmd.approvalId
      case None => AddPlanned(db, db, x, auditId, now)
      case Some(approvalId) =>
        var (working, consumed) := ConsumeLocked(db, cmd.call, approvalId, now);
        match consumed
        case Err(e) => (if e.ApprovalExpired? then working else db, Err(e))
        case Ok(_) => AddPlanned(db, working, x, auditId, now)
  }

  /** The end of `plan`: add the execution and its audit to the working store and commit, or keep db. */
  function AddPlanned(db: Db, working: Db, x: Execution, auditId: string, now: Time): (Db, Result<Execution, Error>) {
    match AddExecution(working, x)
    case Err(e) => (db, Err(e))
    case Ok(added) =>
      match AppendAudit(added, ExecutionAudit(x, Allowed, auditId, now))
      case Err(e) => (db, Err(e))
      case Ok(committed) => (committed, Ok(x))
  }

  /** `start_attempt` */
  function StartAttemptTx(db: Db, tenant: string, executionId: string, attemptId: string, now: Time)
    : (Db, Result<Attempt, Error>)
  {
    match GetExecution(db, tenant, executionId)
    case None => (db, Err(ExecutionNotFound))
    case Some(x) =>
      if !x.status.Running? then (db, Err(InvalidExecutionState))
      else
        var registered := x.(attemptCount := x.attemptCount + 1);
        var a := Attempt(attemptId, tenant, executionId, registered.attemptCount, InFlight, now, None, None, None,
                         None);
        if !registered.WellFormed() || !a.Named() || !a.WellFormed() then (db, Err(Invalid))
        else match AddAttempt(db.(executions := db.executions[x.id := registered]), a)
          case Err(e) => (db, Err(e))
          case Ok(committed) => (committed, Ok(a))
  }

  /** `_finish_attempt` */
  function FinishAttemptTx(db: Db, tenant: string, attemptId: string, end: AttemptEnd, now: Time)
    : (Db, Result<Attempt, Error>)
  {
    if attemptId !in db.attempts || db.attempts[attemptId].tenant != tenant then (db, Err(AttemptNotFound))
    else
      var a := db.attempts[attemptId];
      if !a.status.InFlight? then (db, Err(InvalidExecutionState))
      else
        var ended := EndAttempt(a, end, now);
        if !ended.WellFormed() then (db, Err(Invalid))
        else (db.(attempts := db.attempts[a.id := ended]), Ok(ended))
  }

  function EndOutcome(end: ExecutionEnd): AuditOutcome {
    match end
    case Succeed => CallSucceeded
    case Cancel => CallCancelled
    case Fail(_, _, unknown) => if unknown then CallUnknown else CallFailed
  }

  /** `_finish` */
  function FinishTx(db: Db, tenant: string, executionId: string, end: ExecutionEnd, auditId: string, now: Time)
    : (Db, Result<Execution, Error>)
  {
    match GetExecution(db, tenant, executionId)
    case None => (db, Err(ExecutionNotFound))
    case Some(x) =>
      if !x.status.Running? then (db, Err(InvalidExecutionState))
      else
        var terminal := End(x, end, now);
        if !terminal.WellFormed() then (db, Err(Invalid))
        else match AppendAudit(db.(executions := db.executions[x.id := terminal]),
                               ExecutionAudit(terminal, EndOutcome(end), auditId, now))
          case Err(e) => (db, Err(e))
          case Ok(committed) => (committed, Ok(terminal))
  }

  /** `record_call_decision`: an audit of a call that never became an execution. */
  function RecordTx(db: Db, call: Call, reasonCode: string, outcome: AuditOutcome, auditId: string, now: Time)
    : (Db, Result<(), Error>)
  {
    match AppendAudit(db, Audit(auditId, call.tenant, call.principal, ToolCall, call.version, outcome, now,
                                call.argumentsDigest, call.policyVersion, Some(reasonCode), None, None))
    case Err(e) => (db, Err(e))
    case Ok(committed) => (committed, Ok(()))
  }

  // -------------------------------------------------------------------- runs

  datatype Step =
    | Request(request: RequestCommand, ttl: int, id: string, auditId: string, now: Time)
    | DecideOn(tenant: string, approvalId: string, approver: string, approved: bool, auditId: string, now: Time)
    | ConsumeAlone(call: Call, approvalId: string, now: Time)
    | Plan(plan: PlanCommand, seen: Option<Execution>, id: string, auditId: string, now: Time)
    | StartAttempt(tenant: string, executionId: string, id: string, now: Time)
    | FinishAttempt(tenant: string, attemptId: string, attemptEnd: AttemptEnd, now: Time)
    | Finish(tenant: string, executionId: string, end: ExecutionEnd, auditId: string, now: Time)
    | Record(call: Call, reasonCode: string, outcome: AuditOutcome, auditId: string, now: Time)

  /** One committed or abandoned transaction. */
  function Apply(db: Db, step: Step): Db {
    match step
    case Request(cmd, ttl, id, auditId, now) => RequestTx(db, cmd, ttl, id, auditId, now).0
    case DecideOn(tenant, approvalId, approver, approved, auditId, now) =>
      DecideTx(db, tenant, approvalId, approver, approved, auditId, now).0
    case ConsumeAlone(call, approvalId, now) => ConsumeTx(db, call, approvalId, now).0
    case Plan(cmd, seen, id, auditId, now) => PlanTx(db, cmd, seen, id, auditId, now).0
    case StartAttempt(tenant, executionId, id, now) => StartAttemptTx(db, tenant, executionId, id, now).0
    case FinishAttempt(tenant, attemptId, end, now) => FinishAttemptTx(db, tenant, attemptId, end, now).0
    case Finish(tenant, executionId, end, auditId, now) => FinishTx(db, tenant, executionId, end, auditId, now).0
    case Record(call, reasonCode, outcome, auditId, now) => RecordTx(db, call, reasonCode, outcome, auditId, now).0
  }

  /** Transactions of any number of callers, in the order they commit. */
  function Run(db: Db, steps: seq<Step>): Db
    decreases |steps|
  {
    if steps == [] then db else Run(Apply(db, steps[0]), steps[1..])
  }
}
