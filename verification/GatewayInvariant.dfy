/**
 What every run of the gateway keeps, whatever the order in which the
 transactions of concurrent callers commit.
 */
module GatewayInvariant {
  import opened Common
  import opened ExecutionDomain
  import opened ApprovalDomain
  import opened GatewayStore

  // ------------------------------------------------------------- invariants

  /** Rows are stored under their ids, satisfy their constructors, and no execution is ever seen before it started. */
  ghost predicate RowsWellFormed(db: Db) {
    && (forall e <- db.executions ::
          && db.executions[e].id == e && db.executions[e].Named() && db.executions[e].WellFormed()
          && !db.executions[e].status.Planned? && db.executions[e].startedAt.Some?)
    && (forall k <- db.attempts :: db.attempts[k].id == k && db.attempts[k].WellFormed())
    && (forall p <- db.approvals :: db.approvals[p].id == p && db.approvals[p].WellFormed())
  }

  /** The call an execution was planned for. */
  function CallOf(x: Execution): Call {
    Call(x.tenant, x.principal, x.version, x.argumentsDigest, x.policyVersion, x.idempotencyKey)
  }

  /** p was consumed for x: same call, at x's start, before it expired. */
  ghost predicate ConsumedFor(p: Approval, x: Execution) {
    p.status.Consumed? && p.tenant == x.tenant && Covers(p, CallOf(x)) &&
    p.consumedAt == x.startedAt && x.startedAt.Some? && x.startedAt.value < p.expiresAt
  }

  ghost predicate ApprovalsBacked(db: Db) {
    forall e <- db.executions :: db.executions[e].approvalId.Some? ==>
      db.executions[e].approvalId.value in db.approvals &&
      ConsumedFor(db.approvals[db.executions[e].approvalId.value], db.executions[e])
  }

  ghost predicate ApprovalsSingleUse(db: Db) {
    forall e, f :: e in db.executions && f in db.executions && e != f && db.executions[e].approvalId.Some? ==>
      db.executions[e].approvalId != db.executions[f].approvalId
  }

  ghost predicate ScopesUnique(db: Db) {
    forall e, f :: e in db.executions && f in db.executions && e != f && db.executions[e].idempotencyKey.Some? ==>
      ScopeOf(db.executions[e]) != ScopeOf(db.executions[f])
  }

  /** Attempts belong to executions and are numbered within 1..attemptCount, each number once. */
  ghost predicate AttemptsOwned(db: Db) {
    forall k <- db.attempts ::
      var a := db.attempts[k];
      a.executionId in db.executions && a.tenant == db.executions[a.executionId].tenant &&
      1 <= a.number <= db.executions[a.executionId].attemptCount
  }

  ghost predicate AttemptsDistinct(db: Db) {
    forall j, k ::
      j in db.attempts && k in db.attempts && j != k && db.attempts[j].executionId == db.attempts[k].executionId ==>
      db.attempts[j].number != db.attempts[k].number
  }

  ghost predicate AttemptsGapless(db: Db) {
    forall e, n :: e in db.executions && 1 <= n <= db.executions[e].attemptCount ==> NumberTaken(db.attempts, e, n)
  }

  /** The audits of one execution, in the order they were appended. */
  function TrailOf(audits: seq<Audit>, executionId: string): seq<Audit> {
    if audits == [] then []
    else
      var n := |audits| - 1;
      if audits[n].executionId == Some(executionId) then TrailOf(audits[..n], executionId) + [audits[n]]
      else TrailOf(audits[..n], executionId)
  }

  function TerminalOutcome(status: ExecutionStatus): AuditOutcome {
    match status
    case Succeeded => CallSucceeded
    case Failed => CallFailed
    case OutcomeUnknown => CallUnknown
    case Cancelled => CallCancelled
    case _ => Denied
  }

  ghost predicate Evidences(audit: Audit, x: Execution, outcome: AuditOutcome, status: ExecutionStatus,
                            attemptCount: int, at: Option<Time>) {
    && audit.outcome == outcome && audit.evidence == Some(Evidence(x.sideEffect, status, attemptCount))
    && audit.tenant == x.tenant && audit.actor == x.principal && audit.resourceId == x.version
    && audit.argumentsDigest == x.argumentsDigest && audit.policyVersion == x.policyVersion
    && audit.reasonCode ==
       (if outcome in {CallFailed, CallUnknown, CallCancelled} then x.errorCode else Some(x.policyReason))
    && at == Some(audit.occurredAt)
  }

  /** One "allowed" audit from the start, and one of the matching outcome exactly when x is terminal. */
  ghost predicate Trail(trail: seq<Audit>, x: Execution) {
    && |trail| == (if x.Terminal() then 2 else 1)
    && Evidences(trail[0], x, Allowed, Running, 0, x.startedAt)
    && (x.Terminal() ==> Evidences(trail[1], x, TerminalOutcome(x.status), x.status, x.attemptCount, x.finishedAt))
  }

  ghost predicate TrailsComplete(db: Db) {
    forall e <- db.executions :: Trail(TrailOf(db.audits, e), db.executions[e])
  }

  ghost predicate AuditsOwned(db: Db) {
    forall a <- db.audits :: a.executionId.Some? ==> a.executionId.value in db.executions
  }

  ghost predicate Inv(db: Db) {
    && RowsWellFormed(db)
    && ApprovalsBacked(db) && ApprovalsSingleUse(db) && ScopesUnique(db)
    && AttemptsOwned(db) && AttemptsDistinct(db) && AttemptsGapless(db)
    && TrailsComplete(db) && AuditsOwned(db)
  }

  // -------------------------------------------------------------- approvals

  /** A new approval, or a new state of one that is not consumed yet. */
  ghost predicate ApprovalChange(before: Db, after: Db, id: string) {
    && after.executions == before.executions && after.attempts == before.attempts && after.audits == before.audits
    && id in after.approvals && after.approvals == before.approvals[id := after.approvals[id]]
    && after.approvals[id].id == id && after.approvals[id].WellFormed()
    && (id in before.approvals ==> !before.approvals[id].status.Consumed?)
  }

  lemma ApprovalChangeKeeps(before: Db, after: Db, id: string)
    requires Inv(before) && ApprovalChange(before, after, id)
    ensures Inv(after)
  {
    assert RowsWellFormed(after);
    assert ApprovalsBacked(after);
  }

  /** An audit that belongs to no execution. */
  lemma ForeignAuditKeeps(before: Db, audit: Audit)
    requires Inv(before) && audit.executionId.None?
    ensures Inv(before.(audits := before.audits + [audit]))
  {
    var after := before.(audits := before.audits + [audit]);
    forall e <- after.executions ensures TrailOf(after.audits, e) == TrailOf(before.audits, e) {
      TrailAppends(before.audits, audit, e);
    }
    assert RowsWellFormed(after) && TrailsComplete(after) && AuditsOwned(after);
  }

  lemma TrailAppends(audits: seq<Audit>, audit: Audit, e: string)
    ensures TrailOf(audits + [audit], e) == TrailOf(audits, e) + (if audit.executionId == Some(e) then [audit] else [])
  {
    assert (audits + [audit])[..|audits|] == audits;
  }

  ghost predicate ConsumedAt(p: Approval, call: Call, now: Time) {
    p.status.Consumed? && p.tenant == call.tenant && Covers(p, call) && p.consumedAt == Some(now) && now < p.expiresAt
  }

  /** The defensive checks of the approval's own transitions never fire: the use case has tested them already. */
  lemma ConsumeLockedOutcome(db: Db, call: Call, approvalId: string, now: Time)
    requires RowsWellFormed(db)
    ensures var (working, outcome) := ConsumeLocked(db, call, approvalId, now);
            && outcome != Err(Invalid)
            && (working == db || ApprovalChange(db, working, approvalId))
            && (outcome.Err? && !outcome.error.ApprovalExpired? ==> working == db)
            && (outcome.Err? && working != db ==> working.approvals[approvalId].status.Expired?)
            && (outcome.Ok? ==>
                ApprovalChange(db, working, approvalId) && working.approvals[approvalId] == outcome.value)
            && (outcome.Ok? ==> ConsumedAt(outcome.value, call, now))
  {
  }

  lemma InvParts(db: Db)
    requires Inv(db)
    ensures RowsWellFormed(db) && ApprovalsBacked(db) && ApprovalsSingleUse(db) && ScopesUnique(db)
    ensures AttemptsOwned(db) && AttemptsDistinct(db) && AttemptsGapless(db) && TrailsComplete(db) && AuditsOwned(db)
  {
  }

  lemma InvWhole(db: Db)
    requires RowsWellFormed(db) && ApprovalsBacked(db) && ApprovalsSingleUse(db) && ScopesUnique(db)
    requires AttemptsOwned(db) && AttemptsDistinct(db) && AttemptsGapless(db) && TrailsComplete(db) && AuditsOwned(db)
    ensures Inv(db)
  {
  }

  /** An approval transaction: nothing, a change of one approval, or such a change with a foreign audit. */
  ghost predicate ApprovalStep(before: Db, after: Db, id: string) {
    || after == before
    || ApprovalChange(before, after, id)
    || (ApprovalChange(before, after.(audits := before.audits), id) && ForeignAppended(before.audits, after.audits))
  }

  ghost predicate ForeignAppended(before: seq<Audit>, after: seq<Audit>) {
    |after| == |before| + 1 && after == before + [after[|before|]] && after[|before|].executionId.None?
  }

  lemma ApprovalStepKeeps(before: Db, after: Db, id: string)
    requires Inv(before) && ApprovalStep(before, after, id)
    ensures Inv(after)
  {
    hide Inv;
    if ApprovalChange(before, after, id) {
      ApprovalChangeKeeps(before, after, id);
    } else if after != before {
      var audit := after.audits[|before.audits|];
      ApprovalChangeKeeps(before, after.(audits := before.audits), id);
      ForeignAuditKeeps(after.(audits := before.audits), audit);
      assert after.(audits := before.audits).(audits := before.audits + [audit]) == after;
    }
  }

  lemma ConsumeSteps(db: Db, call: Call, approvalId: string, now: Time)
    requires RowsWellFormed(db)
    ensures ApprovalStep(db, ConsumeTx(db, call, approvalId, now).0, approvalId)
  {
    ConsumeLockedOutcome(db, call, approvalId, now);
  }

  lemma RequestSteps(db: Db, cmd: RequestCommand, ttl: int, id: string, auditId: string, now: Time)
    ensures ApprovalStep(db, RequestTx(db, cmd, ttl, id, auditId, now).0, id)
  {
  }

  lemma DecideSteps(db: Db, tenant: string, approvalId: string, approver: string, approved: bool, auditId: string,
                    now: Time)
    requires RowsWellFormed(db)
    ensures ApprovalStep(db, DecideTx(db, tenant, approvalId, approver, approved, auditId, now).0, approvalId)
  {
  }

  /** The steps that touch no execution keep the invariant. */
  lemma ApprovalStepsKeep(db: Db, step: Step)
    requires Inv(db) && (step.Request? || step.DecideOn? || step.ConsumeAlone? || step.Record?)
    ensures Inv(Apply(db, step))
  {
    hide Inv;
    InvParts(db);
    match step
    case Request(cmd, ttl, id, auditId, now) =>
      RequestSteps(db, cmd, ttl, id, auditId, now);
      ApprovalStepKeeps(db, Apply(db, step), id);
    case DecideOn(tenant, approvalId, approver, approved, auditId, now) =>
      DecideSteps(db, tenant, approvalId, approver, approved, auditId, now);
      ApprovalStepKeeps(db, Apply(db, step), approvalId);
    case ConsumeAlone(call, approvalId, now) =>
      ConsumeSteps(db, call, approvalId, now);
      ApprovalStepKeeps(db, Apply(db, step), approvalId);
    case Record(call, reasonCode, outcome, auditId, now) =>
      ForeignAuditKeeps(db, Audit(auditId, call.tenant, call.principal, ToolCall, call.version, outcome, now,
                                  call.argumentsDigest, call.policyVersion, Some(reasonCode), None, None));
  }

  // -------------------------------------------------------------- executions

  lemma {:induction false} NoTrail(audits: seq<Audit>, e: string)
    requires forall a <- audits :: a.executionId != Some(e)
    ensures TrailOf(audits, e) == []
  {
    if audits != [] {
      NoTrail(audits[..|audits| - 1], e);
    }
  }

  /**
   An execution appears together with its "allowed" audit; its approval, if any, was
   consumed in the same transaction.
   */
  ghost predicate PlanAdded(before: Db, working: Db, after: Db, x: Execution, audit: Audit) {
    && working.executions == before.executions && working.attempts == before.attempts
    && after == Db(before.executions[x.id := x], before.attempts, working.approvals, working.audits + [audit])
    && x.id !in before.executions && x.Named() && x.WellFormed() && x.status.Running? && x.attemptCount == 0
    && (x.idempotencyKey.Some? ==> !Claimed(before.executions, ScopeOf(x)))
    && audit.executionId == Some(x.id) && Evidences(audit, x, Allowed, Running, 0, x.startedAt)
    && (x.approvalId.Some? ==>
          x.approvalId.value in working.approvals && ConsumedFor(working.approvals[x.approvalId.value], x) &&
          (x.approvalId.value in before.approvals ==> !before.approvals[x.approvalId.value].status.Consumed?))
  }

  lemma PlannedKeepsClaims(before: Db, working: Db, after: Db, x: Execution, audit: Audit)
    requires PlanAdded(before, working, after, x, audit)
    requires ApprovalsBacked(before) && ApprovalsBacked(working) && ApprovalsSingleUse(before) && ScopesUnique(before)
    ensures ApprovalsBacked(after) && ApprovalsSingleUse(after) && ScopesUnique(after)
  {
    forall e | e in before.executions && before.executions[e].approvalId.Some?
      ensures before.executions[e].approvalId != x.approvalId
    {
      assert before.approvals[before.executions[e].approvalId.value].status.Consumed?;
    }
  }

  lemma PlannedKeepsRows(before: Db, working: Db, after: Db, x: Execution, audit: Audit)
    requires PlanAdded(before, working, after, x, audit)
    requires RowsWellFormed(before) && RowsWellFormed(working)
    ensures RowsWellFormed(after)
  {
  }

  lemma PlannedKeepsAttempts(before: Db, working: Db, after: Db, x: Execution, audit: Audit)
    requires PlanAdded(before, working, after, x, audit)
    requires AttemptsOwned(before) && AttemptsDistinct(before) && AttemptsGapless(before)
    ensures AttemptsOwned(after) && AttemptsDistinct(after) && AttemptsGapless(after)
  {
    hide PlanAdded;
    PlannedFrame(before, working, after, x, audit);
  }

  lemma PlannedFrame(before: Db, working: Db, after: Db, x: Execution, audit: Audit)
    requires PlanAdded(before, working, after, x, audit)
    ensures after.executions == before.executions[x.id := x] && after.attempts == before.attempts
    ensures x.id !in before.executions && x.attemptCount == 0
  {
  }

  lemma PlannedKeepsTrails(before: Db, working: Db, after: Db, x: Execution, audit: Audit)
    requires PlanAdded(before, working, after, x, audit)
    requires TrailsComplete(working) && AuditsOwned(working)
    ensures TrailsComplete(after) && AuditsOwned(after)
  {
    forall e <- after.executions ensures Trail(TrailOf(after.audits, e), after.executions[e]) {
      TrailAppends(working.audits, audit, e);
      if e == x.id {
        NoTrail(working.audits, e);
      }
    }
  }

  lemma PlannedKeeps(before: Db, working: Db, after: Db, x: Execution, audit: Audit)
    requires Inv(before) && Inv(working) && PlanAdded(before, working, after, x, audit)
    ensures Inv(after)
  {
    hide *;
    InvParts(before);
    InvParts(working);
    PlannedKeepsClaims(before, working, after, x, audit);
    PlannedKeepsRows(before, working, after, x, audit);
    PlannedKeepsAttempts(before, working, after, x, audit);
    PlannedKeepsTrails(before, working, after, x, audit);
    InvWhole(after);
  }

  lemma AddPlannedShape(db: Db, working: Db, x: Execution, auditId: string, now: Time)
    requires working.executions == db.executions && working.attempts == db.attempts
    requires x.Named() && x.WellFormed() && x.status.Running? && x.attemptCount == 0 && x.startedAt == Some(now)
    requires x.approvalId.Some? ==>
      x.approvalId.value in working.approvals && ConsumedFor(working.approvals[x.approvalId.value], x) &&
      (x.approvalId.value in db.approvals ==> !db.approvals[x.approvalId.value].status.Consumed?)
    ensures var (after, outcome) := AddPlanned(db, working, x, auditId, now);
            (outcome.Err? ==> after == db) &&
            (outcome.Ok? ==>
             outcome.value == x && PlanAdded(db, working, after, x, ExecutionAudit(x, Allowed, auditId, now)))
  {
  }

  /** What plan does to the store: nothing, an expiry of its approval, or a new execution over the consumed approval. */
  lemma PlanShape(db: Db, cmd: PlanCommand, seen: Option<Execution>, id: string, auditId: string, now: Time)
    requires RowsWellFormed(db)
    ensures var (after, outcome) := PlanTx(db, cmd, seen, id, auditId, now);
            var x, working := NewExecution(cmd, id, now), PlanWorking(db, cmd, now);
            && (working == db || (cmd.approvalId.Some? && ApprovalChange(db, working, cmd.approvalId.value)))
            && (outcome.Ok? ==>
                outcome.value == x && PlanAdded(db, working, after, x, ExecutionAudit(x, Allowed, auditId, now)))
            && (outcome.Err? ==> after == db || (outcome.error.ApprovalExpired? && after == working))
  {
    var x := NewExecution(cmd, id, now);
    if cmd.approvalId.None? {
      if x.Named() && x.WellFormed() {
        AddPlannedShape(db, db, x, auditId, now);
      }
    } else {
      ConsumeLockedOutcome(db, cmd.call, cmd.approvalId.value, now);
      var (working, consumed) := ConsumeLocked(db, cmd.call, cmd.approvalId.value, now);
      if x.Named() && x.WellFormed() && consumed.Ok? {
        assert CallOf(x) == cmd.call;
        AddPlannedShape(db, working, x, auditId, now);
      }
    }
  }

  /** The working store of plan after the approval step. */
  function PlanWorking(db: Db, cmd: PlanCommand, now: Time): Db {
    if cmd.approvalId.None? then db else ConsumeLocked(db, cmd.call, cmd.approvalId.value, now).0
  }

  lemma PlanKeeps(db: Db, cmd: PlanCommand, seen: Option<Execution>, id: string, auditId: string, now: Time)
    requires Inv(db)
    ensures Inv(PlanTx(db, cmd, seen, id, auditId, now).0)
  {
    hide *;
    InvParts(db);
    PlanShape(db, cmd, seen, id, auditId, now);
    var working := PlanWorking(db, cmd, now);
    if working != db {
      ApprovalChangeKeeps(db, working, cmd.approvalId.value);
    }
    var (after, outcome) := PlanTx(db, cmd, seen, id, auditId, now);
    if outcome.Ok? {
      PlannedKeeps(db, working, after, outcome.value, ExecutionAudit(outcome.value, Allowed, auditId, now));
    }
  }

  /** A running execution registers its next attempt. */
  ghost predicate Attempted(before: Db, after: Db, e: string, a: Attempt) {
    && e in before.executions && before.executions[e].status.Running? && a.id !in before.attempts
    && var count := before.executions[e].attemptCount + 1;
    && after == before.(executions := before.executions[e := before.executions[e].(attemptCount := count)],
                        attempts := before.attempts[a.id := a])
    && a.WellFormed() && a.status.InFlight? && a.executionId == e && a.number == count
    && a.tenant == before.executions[e].tenant
  }

  lemma AttemptedKeepsOwners(before: Db, after: Db, e: string, a: Attempt)
    requires Attempted(before, after, e, a) && AttemptsOwned(before) && AttemptsDistinct(before)
    ensures AttemptsOwned(after) && AttemptsDistinct(after)
  {
  }

  lemma AttemptedKeepsGapless(before: Db, after: Db, e: string, a: Attempt)
    requires Attempted(before, after, e, a) && AttemptsGapless(before)
    ensures AttemptsGapless(after)
  {
    forall f, n | f in after.executions && 1 <= n <= after.executions[f].attemptCount
      ensures NumberTaken(after.attempts, f, n)
    {
      if f == e && n == a.number {
        assert after.attempts[a.id] == a;
      } else {
        assert NumberTaken(before.attempts, f, n);
        var k :| k in before.attempts && before.attempts[k].executionId == f && before.attempts[k].number == n;
        assert after.attempts[k] == before.attempts[k];
      }
    }
  }

  lemma AttemptedKeepsRows(before: Db, after: Db, e: string, a: Attempt)
    requires Attempted(before, after, e, a) && RowsWellFormed(before)
    ensures RowsWellFormed(after)
  {
  }

  lemma AttemptedKeepsClaims(before: Db, after: Db, e: string, a: Attempt)
    requires Attempted(before, after, e, a)
    requires ApprovalsBacked(before) && ApprovalsSingleUse(before) && ScopesUnique(before)
    ensures ApprovalsBacked(after) && ApprovalsSingleUse(after) && ScopesUnique(after)
  {
    SameClaims(before, after);
  }

  lemma AttemptedKeepsTrails(before: Db, after: Db, e: string, a: Attempt)
    requires Attempted(before, after, e, a) && TrailsComplete(before) && AuditsOwned(before)
    ensures TrailsComplete(after) && AuditsOwned(after)
  {
  }

  /** What an execution claims never changes: its call, start and approval. */
  ghost predicate ClaimsAlike(x: Execution, y: Execution) {
    CallOf(x) == CallOf(y) && x.startedAt == y.startedAt && x.approvalId == y.approvalId
  }

  lemma SameClaims(before: Db, after: Db)
    requires after.approvals == before.approvals && after.executions.Keys == before.executions.Keys
    requires forall f <- after.executions :: ClaimsAlike(after.executions[f], before.executions[f])
    requires ApprovalsBacked(before) && ApprovalsSingleUse(before) && ScopesUnique(before)
    ensures ApprovalsBacked(after) && ApprovalsSingleUse(after) && ScopesUnique(after)
  {
  }

  lemma AttemptedKeeps(before: Db, after: Db, e: string, a: Attempt)
    requires Inv(before) && Attempted(before, after, e, a)
    ensures Inv(after)
  {
    hide *;
    InvParts(before);
    AttemptedKeepsOwners(before, after, e, a);
    AttemptedKeepsGapless(before, after, e, a);
    AttemptedKeepsRows(before, after, e, a);
    AttemptedKeepsClaims(before, after, e, a);
    AttemptedKeepsTrails(before, after, e, a);
    InvWhole(after);
  }

  lemma StartAttemptShape(db: Db, tenant: string, executionId: string, attemptId: string, now: Time)
    requires RowsWellFormed(db)
    ensures var (after, outcome) := StartAttemptTx(db, tenant, executionId, attemptId, now);
            (outcome.Err? ==> after == db) &&
            (outcome.Ok? ==> outcome.value.id == attemptId && Attempted(db, after, executionId, outcome.value))
  {
  }

  lemma StartAttemptKeeps(db: Db, tenant: string, executionId: string, attemptId: string, now: Time)
    requires Inv(db)
    ensures Inv(StartAttemptTx(db, tenant, executionId, attemptId, now).0)
  {
    hide *;
    InvParts(db);
    StartAttemptShape(db, tenant, executionId, attemptId, now);
    var (after, outcome) := StartAttemptTx(db, tenant, executionId, attemptId, now);
    if outcome.Ok? {
      AttemptedKeeps(db, after, executionId, outcome.value);
    }
  }

  /** An attempt in flight ends. */
  ghost predicate AttemptEnded(before: Db, after: Db, k: string, a: Attempt) {
    && k in before.attempts && before.attempts[k].status.InFlight?
    && after == before.(attempts := before.attempts[k := a])
    && a.WellFormed() && !a.status.InFlight? && a.id == k
    && a.executionId == before.attempts[k].executionId && a.number == before.attempts[k].number
    && a.tenant == before.attempts[k].tenant
  }

  lemma AttemptEndedKeepsRows(before: Db, after: Db, k: string, a: Attempt)
    requires AttemptEnded(before, after, k, a) && RowsWellFormed(before)
    ensures RowsWellFormed(after)
  {
  }

  lemma AttemptEndedKeepsOwners(before: Db, after: Db, k: string, a: Attempt)
    requires AttemptEnded(before, after, k, a) && AttemptsOwned(before) && AttemptsDistinct(before)
    ensures AttemptsOwned(after) && AttemptsDistinct(after)
  {
  }

  lemma AttemptEndedKeepsGapless(before: Db, after: Db, k: string, a: Attempt)
    requires AttemptEnded(before, after, k, a) && AttemptsGapless(before)
    ensures AttemptsGapless(after)
  {
    forall e, n | e in after.executions && 1 <= n <= after.executions[e].attemptCount
      ensures NumberTaken(after.attempts, e, n)
    {
      assert NumberTaken(before.attempts, e, n);
      var j :| j in before.attempts && before.attempts[j].executionId == e && before.attempts[j].number == n;
      assert after.attempts[j].executionId == e && after.attempts[j].number == n;
    }
  }

  lemma AttemptEndedFrame(before: Db, after: Db, k: string, a: Attempt)
    requires AttemptEnded(before, after, k, a)
    requires ApprovalsBacked(before) && ApprovalsSingleUse(before) && ScopesUnique(before) && TrailsComplete(before)
    requires AuditsOwned(before)
    ensures ApprovalsBacked(after) && ApprovalsSingleUse(after) && ScopesUnique(after) && TrailsComplete(after)
    ensures AuditsOwned(after)
  {
  }

  lemma AttemptEndKeeps(before: Db, after: Db, k: string, a: Attempt)
    requires Inv(before) && AttemptEnded(before, after, k, a)
    ensures Inv(after)
  {
    hide *;
    InvParts(before);
    AttemptEndedFrame(before, after, k, a);
    AttemptEndedKeepsRows(before, after, k, a);
    AttemptEndedKeepsOwners(before, after, k, a);
    AttemptEndedKeepsGapless(before, after, k, a);
    InvWhole(after);
  }

  lemma FinishAttemptShape(db: Db, tenant: string, attemptId: string, end: AttemptEnd, now: Time)
    requires RowsWellFormed(db)
    ensures var (after, outcome) := FinishAttemptTx(db, tenant, attemptId, end, now);
            (outcome.Err? ==> after == db) &&
            (outcome.Ok? ==> AttemptEnded(db, after, attemptId, outcome.value) &&
                             outcome.value == EndAttempt(db.attempts[attemptId], end, now))
  {
  }

  lemma FinishAttemptKeeps(db: Db, tenant: string, attemptId: string, end: AttemptEnd, now: Time)
    requires Inv(db)
    ensures Inv(FinishAttemptTx(db, tenant, attemptId, end, now).0)
  {
    hide *;
    InvParts(db);
    FinishAttemptShape(db, tenant, attemptId, end, now);
    var (after, outcome) := FinishAttemptTx(db, tenant, attemptId, end, now);
    if outcome.Ok? {
      AttemptEndKeeps(db, after, attemptId, outcome.value);
    }
  }

  /** A running execution becomes terminal and its terminal audit is appended. */
  ghost predicate Ended(before: Db, after: Db, e: string, end: ExecutionEnd, now: Time, audit: Audit) {
    && e in before.executions && before.executions[e].status.Running?
    && var terminal := End(before.executions[e], end, now);
    && after == before.(executions := before.executions[e := terminal], audits := before.audits + [audit])
    && terminal.WellFormed() && audit.executionId == Some(e)
    && Evidences(audit, terminal, TerminalOutcome(terminal.status), terminal.status, terminal.attemptCount,
                 terminal.finishedAt)
  }

  lemma EndedKeepsTrails(before: Db, after: Db, e: string, end: ExecutionEnd, now: Time, audit: Audit)
    requires Ended(before, after, e, end, now, audit) && TrailsComplete(before) && AuditsOwned(before)
    ensures TrailsComplete(after) && AuditsOwned(after)
  {
    forall f <- after.executions ensures Trail(TrailOf(after.audits, f), after.executions[f]) {
      TrailAppends(before.audits, audit, f);
      assert Trail(TrailOf(before.audits, f), before.executions[f]);
    }
  }

  lemma EndedKeepsRows(before: Db, after: Db, e: string, end: ExecutionEnd, now: Time, audit: Audit)
    requires Ended(before, after, e, end, now, audit) && RowsWellFormed(before)
    ensures RowsWellFormed(after)
  {
  }

  lemma EndedKeepsClaims(before: Db, after: Db, e: string, end: ExecutionEnd, now: Time, audit: Audit)
    requires Ended(before, after, e, end, now, audit)
    requires ApprovalsBacked(before) && ApprovalsSingleUse(before) && ScopesUnique(before)
    ensures ApprovalsBacked(after) && ApprovalsSingleUse(after) && ScopesUnique(after)
  {
    SameClaims(before, after);
  }

  lemma EndedKeepsAttempts(before: Db, after: Db, e: string, end: ExecutionEnd, now: Time, audit: Audit)
    requires Ended(before, after, e, end, now, audit)
    requires AttemptsOwned(before) && AttemptsDistinct(before) && AttemptsGapless(before)
    ensures AttemptsOwned(after) && AttemptsDistinct(after) && AttemptsGapless(after)
  {
  }

  lemma EndedKeeps(before: Db, after: Db, e: string, end: ExecutionEnd, now: Time, audit: Audit)
    requires Inv(before) && Ended(before, after, e, end, now, audit)
    ensures Inv(after)
  {
    hide *;
    InvParts(before);
    EndedKeepsTrails(before, after, e, end, now, audit);
    EndedKeepsRows(before, after, e, end, now, audit);
    EndedKeepsClaims(before, after, e, end, now, audit);
    EndedKeepsAttempts(before, after, e, end, now, audit);
    InvWhole(after);
  }

  lemma FinishShape(db: Db, tenant: string, executionId: string, end: ExecutionEnd, auditId: string, now: Time)
    requires RowsWellFormed(db)
    ensures var (after, outcome) := FinishTx(db, tenant, executionId, end, auditId, now);
            (outcome.Err? ==> after == db) &&
            (outcome.Ok? ==>
             Ended(db, after, executionId, end, now, ExecutionAudit(outcome.value, EndOutcome(end), auditId, now)))
  {
  }

  lemma FinishKeeps(db: Db, tenant: string, executionId: string, end: ExecutionEnd, auditId: string, now: Time)
    requires Inv(db)
    ensures Inv(FinishTx(db, tenant, executionId, end, auditId, now).0)
  {
    hide *;
    InvParts(db);
    FinishShape(db, tenant, executionId, end, auditId, now);
    var (after, outcome) := FinishTx(db, tenant, executionId, end, auditId, now);
    if outcome.Ok? {
      EndedKeeps(db, after, executionId, end, now, ExecutionAudit(outcome.value, EndOutcome(end), auditId, now));
    }
  }

  lemma ApplyKeeps(db: Db, step: Step)
    requires Inv(db)
    ensures Inv(Apply(db, step))
  {
    hide Inv;
    match step
    case Plan(cmd, seen, id, auditId, now) => PlanKeeps(db, cmd, seen, id, auditId, now);
    case StartAttempt(tenant, executionId, id, now) => StartAttemptKeeps(db, tenant, executionId, id, now);
    case FinishAttempt(tenant, attemptId, end, now) => FinishAttemptKeeps(db, tenant, attemptId, end, now);
    case Finish(tenant, executionId, end, auditId, now) => FinishKeeps(db, tenant, executionId, end, auditId, now);
    case _ => ApprovalStepsKeep(db, step);
  }

  /** Every run from the empty store, over every interleaving of transactions, keeps the invariant. */
  lemma {:induction false} EveryRunKeeps(db: Db, steps: seq<Step>)
    requires Inv(db)
    ensures Inv(Run(db, steps))
    decreases |steps|
  {
    if steps != [] {
      ApplyKeeps(db, steps[0]);
      EveryRunKeeps(Apply(db, steps[0]), steps[1..]);
    }
  }

  lemma EmptyStore()
    ensures Inv(EMPTY)
  {
  }
}
