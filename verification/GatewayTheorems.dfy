/**
 The gateway's promises over whole runs: what may be concluded about any store that a
 run from the empty store reaches.
 */
module GatewayTheorems {
  import opened Common
  import opened ExecutionDomain
  import opened ApprovalDomain
  import opened GatewayStore
  import opened GatewayInvariant

  /** Single use: two executions never share an approval, and each approval in use was consumed for its execution. */
  lemma ApprovalsSingleUseOverRuns(steps: seq<Step>, e: string, f: string)
    ensures var db := Run(EMPTY, steps);
            e in db.executions && db.executions[e].approvalId.Some? ==>
              && db.executions[e].approvalId.value in db.approvals
              && ConsumedFor(db.approvals[db.executions[e].approvalId.value], db.executions[e])
              && (f in db.executions && f != e ==> db.executions[f].approvalId != db.executions[e].approvalId)
  {
    EmptyStore();
    EveryRunKeeps(EMPTY, steps);
  }

  /**
   One claim per idempotency scope, whatever each plan saw when it looked the
   key up: two executions of one scope with a key are the same execution.
   */
  lemma OneExecutionPerKey(steps: seq<Step>, e: string, f: string)
    requires e in Run(EMPTY, steps).executions && f in Run(EMPTY, steps).executions
    requires ScopeOf(Run(EMPTY, steps).executions[e]) == ScopeOf(Run(EMPTY, steps).executions[f])
    requires Run(EMPTY, steps).executions[e].idempotencyKey.Some?
    ensures e == f
  {
    EmptyStore();
    EveryRunKeeps(EMPTY, steps);
  }

  // ----------------------------------------------------------------- attempts

  ghost function AttemptsOf(db: Db, e: string): set<string> {
    set k | k in db.attempts && db.attempts[k].executionId == e
  }

  ghost predicate HasNumber(attempts: map<string, Attempt>, keys: set<string>, m: int) {
    exists k <- keys :: k in attempts && attempts[k].number == m
  }

  lemma {:induction false} CountNumbered(attempts: map<string, Attempt>, keys: set<string>, n: nat)
    requires forall k <- keys :: k in attempts && 1 <= attempts[k].number <= n
    requires forall j, k :: j in keys && k in keys && j != k ==> attempts[j].number != attempts[k].number
    requires forall m :: 1 <= m <= n ==> HasNumber(attempts, keys, m)
    ensures |keys| == n
  {
    if n == 0 {
      assert keys == {};
    } else {
      assert HasNumber(attempts, keys, n);
      var last :| last in keys && attempts[last].number == n;
      forall m | 1 <= m <= n - 1 ensures HasNumber(attempts, keys - {last}, m) {
        assert HasNumber(attempts, keys, m);
        var k :| k in keys && attempts[k].number == m;
        assert k in keys - {last};
      }
      CountNumbered(attempts, keys - {last}, n - 1);
    }
  }

  /**
   The attempts of an execution are numbered exactly 1..attemptCount: within range,
   none twice, none missing, that many.
   */
  lemma AttemptsNumbered(db: Db, e: string)
    requires Inv(db) && e in db.executions
    ensures forall k <- AttemptsOf(db, e) :: 1 <= db.attempts[k].number <= db.executions[e].attemptCount
    ensures forall j, k ::
              j in AttemptsOf(db, e) && k in AttemptsOf(db, e) && db.attempts[j].number == db.attempts[k].number ==>
                j == k
    ensures forall m :: 1 <= m <= db.executions[e].attemptCount ==> HasNumber(db.attempts, AttemptsOf(db, e), m)
    ensures |AttemptsOf(db, e)| == db.executions[e].attemptCount
  {
    var n := db.executions[e].attemptCount;
    assert db.executions[e].WellFormed();
    forall m | 1 <= m <= n ensures HasNumber(db.attempts, AttemptsOf(db, e), m) {
      assert NumberTaken(db.attempts, e, m);
      var k :| k in db.attempts && db.attempts[k].executionId == e && db.attempts[k].number == m;
      assert k in AttemptsOf(db, e);
    }
    CountNumbered(db.attempts, AttemptsOf(db, e), n);
  }

  // ------------------------------------------------------------------ history

  /** What never changes from one store to a later one. */
  ghost predicate ExecutionsLater(before: Db, after: Db) {
    forall e <- before.executions ::
      && e in after.executions && ClaimsAlike(before.executions[e], after.executions[e])
      && before.executions[e].attemptCount <= after.executions[e].attemptCount
      && (before.executions[e].Terminal() ==> after.executions[e] == before.executions[e])
  }

  ghost predicate AttemptsLater(before: Db, after: Db) {
    forall k <- before.attempts ::
      k in after.attempts && (!before.attempts[k].status.InFlight? ==> after.attempts[k] == before.attempts[k])
  }

  ghost predicate ApprovalsLater(before: Db, after: Db) {
    forall p <- before.approvals ::
      p in after.approvals && (before.approvals[p].status.Consumed? ==> after.approvals[p] == before.approvals[p])
  }

  ghost predicate Later(before: Db, after: Db) {
    ExecutionsLater(before, after) && AttemptsLater(before, after) && ApprovalsLater(before, after) &&
      before.audits <= after.audits
  }

  lemma ApprovalStepIsLater(before: Db, after: Db, id: string)
    requires ApprovalStep(before, after, id)
    ensures Later(before, after)
  {
  }

  lemma PlannedIsLater(before: Db, working: Db, after: Db, x: Execution, audit: Audit)
    requires PlanAdded(before, working, after, x, audit) && Later(before, working)
    ensures Later(before, after)
  {
  }

  lemma AttemptedIsLater(before: Db, after: Db, e: string, a: Attempt)
    requires Attempted(before, after, e, a)
    ensures Later(before, after)
  {
  }

  lemma AttemptEndedIsLater(before: Db, after: Db, k: string, a: Attempt)
    requires AttemptEnded(before, after, k, a)
    ensures Later(before, after)
  {
  }

  lemma EndedIsLater(before: Db, after: Db, e: string, end: ExecutionEnd, now: Time, audit: Audit)
    requires Ended(before, after, e, end, now, audit)
    ensures Later(before, after)
  {
  }

  lemma PlanIsLater(db: Db, cmd: PlanCommand, seen: Option<Execution>, id: string, auditId: string, now: Time)
    requires RowsWellFormed(db)
    ensures Later(db, PlanTx(db, cmd, seen, id, auditId, now).0)
  {
    hide *;
    PlanShape(db, cmd, seen, id, auditId, now);
    NowIsLater(db);
    var working := PlanWorking(db, cmd, now);
    if working != db {
      ApprovalChangeIsStep(db, working, cmd.approvalId.value);
      ApprovalStepIsLater(db, working, cmd.approvalId.value);
    }
    var (after, outcome) := PlanTx(db, cmd, seen, id, auditId, now);
    if outcome.Ok? {
      PlannedIsLater(db, working, after, outcome.value, ExecutionAudit(outcome.value, Allowed, auditId, now));
    }
  }

  lemma ApprovalChangeIsStep(before: Db, after: Db, id: string)
    requires ApprovalChange(before, after, id)
    ensures ApprovalStep(before, after, id)
  {
  }

  lemma RecordIsLater(db: Db, call: Call, reasonCode: string, outcome: AuditOutcome, auditId: string, now: Time)
    ensures Later(db, RecordTx(db, call, reasonCode, outcome, auditId, now).0)
  {
  }

  lemma StepIsLater(db: Db, step: Step)
    requires RowsWellFormed(db)
    ensures Later(db, Apply(db, step))
  {
    hide RowsWellFormed, Later, ApprovalStep, Attempted, AttemptEnded, Ended, ExecutionAudit, EndAttempt;
    hide RequestTx, DecideTx, ConsumeTx, PlanTx, StartAttemptTx, FinishAttemptTx, FinishTx, RecordTx;
    match step
    case Request(cmd, ttl, id, auditId, now) =>
      RequestSteps(db, cmd, ttl, id, auditId, now);
      ApprovalStepIsLater(db, RequestTx(db, cmd, ttl, id, auditId, now).0, id);
    case DecideOn(tenant, approvalId, approver, approved, auditId, now) =>
      DecideSteps(db, tenant, approvalId, approver, approved, auditId, now);
      ApprovalStepIsLater(db, DecideTx(db, tenant, approvalId, approver, approved, auditId, now).0, approvalId);
    case ConsumeAlone(call, approvalId, now) =>
      ConsumeSteps(db, call, approvalId, now);
      ApprovalStepIsLater(db, ConsumeTx(db, call, approvalId, now).0, approvalId);
    case Plan(cmd, seen, id, auditId, now) =>
      PlanIsLater(db, cmd, seen, id, auditId, now);
    case StartAttempt(tenant, executionId, id, now) =>
      NowIsLater(db);
      StartAttemptShape(db, tenant, executionId, id, now);
      var (after, outcome) := StartAttemptTx(db, tenant, executionId, id, now);
      if outcome.Ok? { AttemptedIsLater(db, after, executionId, outcome.value); }
    case FinishAttempt(tenant, attemptId, end, now) =>
      NowIsLater(db);
      FinishAttemptShape(db, tenant, attemptId, end, now);
      var (after, outcome) := FinishAttemptTx(db, tenant, attemptId, end, now);
      if outcome.Ok? { AttemptEndedIsLater(db, after, attemptId, outcome.value); }
    case Finish(tenant, executionId, end, auditId, now) =>
      NowIsLater(db);
      FinishShape(db, tenant, executionId, end, auditId, now);
      var (after, outcome) := FinishTx(db, tenant, executionId, end, auditId, now);
      if outcome.Ok? {
        EndedIsLater(db, after, executionId, end, now, ExecutionAudit(outcome.value, EndOutcome(end), auditId, now));
      }
    case Record(call, reasonCode, outcome, auditId, now) =>
      RecordIsLater(db, call, reasonCode, outcome, auditId, now);
  }

  lemma LaterTransitive(a: Db, b: Db, c: Db)
    requires Later(a, b) && Later(b, c)
    ensures Later(a, c)
  {
  }

  lemma {:induction false} RunIsLater(db: Db, steps: seq<Step>)
    requires Inv(db)
    ensures Inv(Run(db, steps)) && Later(db, Run(db, steps))
    decreases |steps|
  {
    hide Inv, Later, Apply;
    if steps == [] {
      NowIsLater(db);
    } else {
      InvParts(db);
      ApplyKeeps(db, steps[0]);
      StepIsLater(db, steps[0]);
      RunIsLater(Apply(db, steps[0]), steps[1..]);
      LaterTransitive(db, Apply(db, steps[0]), Run(db, steps));
    }
  }

  lemma NowIsLater(db: Db)
    ensures Later(db, db)
  {
  }

  /**
   Audit conservation: after any run the audits of an execution are exactly one
   "allowed" audit, followed by exactly one audit of the matching outcome once
   it is terminal; and however the run goes on, a terminal execution keeps its
   row, and that audit keeps counting its stored attempts.
   */
  lemma TerminalForEver(steps: seq<Step>, more: seq<Step>, e: string)
    requires e in Run(EMPTY, steps).executions
    ensures Trail(TrailOf(Run(EMPTY, steps).audits, e), Run(EMPTY, steps).executions[e])
    ensures Run(EMPTY, steps).executions[e].Terminal() ==>
              var later := Run(Run(EMPTY, steps), more);
              && e in later.executions && later.executions[e] == Run(EMPTY, steps).executions[e]
              && |TrailOf(later.audits, e)| == 2
              && TrailOf(later.audits, e)[1].evidence.Some?
              && TrailOf(later.audits, e)[1].evidence.value.attemptCount == |AttemptsOf(later, e)|
  {
    hide Run, RowsWellFormed;
    EmptyStore();
    RunIsLater(EMPTY, steps);
    var db := Run(EMPTY, steps);
    RunIsLater(db, more);
    var later := Run(db, more);
    if db.executions[e].Terminal() {
      AttemptsNumbered(later, e);
    }
  }

  // ------------------------------------------------------- failed transactions

  /**
   A plan that raises leaves every store as it was, except that an expiry may
   move that one approval to Expired; in particular an idempotency reuse or a
   lost race never consumes the approval.
   */
  lemma PlanFailureRollsBack(db: Db, cmd: PlanCommand, seen: Option<Execution>, id: string, auditId: string, now: Time)
    requires RowsWellFormed(db) && PlanTx(db, cmd, seen, id, auditId, now).1.Err?
    ensures var (after, outcome) := PlanTx(db, cmd, seen, id, auditId, now);
            && (after == db ||
                  (outcome.error.ApprovalExpired? && cmd.approvalId.Some? && cmd.approvalId.value in db.approvals &&
                   db.approvals[cmd.approvalId.value].status.Approved? &&
                     now >= db.approvals[cmd.approvalId.value].expiresAt &&
                   after == db.(approvals := db.approvals[cmd.approvalId.value :=
                                                            db.approvals[cmd.approvalId.value].(status := Expired)])))
            && (cmd.call.idempotencyKey.Some? && seen.Some? ==> after == db)
  {
  }

  /**
   A plan that succeeds consumed its approval for exactly this call, now, and added
   exactly one execution and one audit.
   */
  lemma PlanSuccess(db: Db, cmd: PlanCommand, seen: Option<Execution>, id: string, auditId: string, now: Time)
    requires RowsWellFormed(db) && PlanTx(db, cmd, seen, id, auditId, now).1.Ok?
    ensures var (after, outcome) := PlanTx(db, cmd, seen, id, auditId, now);
            && id !in db.executions && after.executions == db.executions[id := outcome.value]
            && outcome.value.status.Running? && outcome.value.startedAt == Some(now) && outcome.value.attemptCount == 0
            && CallOf(outcome.value) == cmd.call && outcome.value.approvalId == cmd.approvalId
            && after.attempts == db.attempts && |after.audits| == |db.audits| + 1 && db.audits < after.audits
            && (cmd.approvalId.None? ==> after.approvals == db.approvals)
            && (cmd.approvalId.Some? ==>
                  var p := cmd.approvalId.value;
                  p in db.approvals && db.approvals[p].status.Approved? &&
                  after.approvals == db.approvals[p := db.approvals[p].(status := Consumed, consumedAt := Some(now))] &&
                  ConsumedFor(after.approvals[p], outcome.value))
  {
    if cmd.approvalId.Some? {
      ConsumeLockedOutcome(db, cmd.call, cmd.approvalId.value, now);
    }
  }

  /** Consuming an approval is a one-way door: of two consumptions in a run at most one succeeds. */
  lemma ConsumedOnce(db: Db, first: Call, more: seq<Step>, second: Call, approvalId: string, now: Time, later: Time)
    requires Inv(db) && ConsumeTx(db, first, approvalId, now).1.Ok?
    ensures ConsumeTx(Run(ConsumeTx(db, first, approvalId, now).0, more), second, approvalId, later).1.Err?
  {
    hide *;
    InvParts(db);
    var after := ConsumeTx(db, first, approvalId, now).0;
    ConsumeAloneKeeps(db, first, approvalId, now);
    RunIsLater(after, more);
    ConsumedStays(after, Run(after, more), approvalId);
    ConsumedIsRefused(Run(after, more), second, approvalId, later);
  }

  ghost predicate IsConsumed(db: Db, p: string) {
    p in db.approvals && db.approvals[p].status.Consumed?
  }

  lemma ConsumeAloneKeeps(db: Db, call: Call, approvalId: string, now: Time)
    requires Inv(db) && ConsumeTx(db, call, approvalId, now).1.Ok?
    ensures Inv(ConsumeTx(db, call, approvalId, now).0)
    ensures IsConsumed(ConsumeTx(db, call, approvalId, now).0, approvalId)
  {
    hide *;
    InvParts(db);
    ConsumeAloneConsumes(db, call, approvalId, now);
    ConsumeSteps(db, call, approvalId, now);
    ApprovalStepKeeps(db, ConsumeTx(db, call, approvalId, now).0, approvalId);
  }

  lemma ConsumeAloneConsumes(db: Db, call: Call, approvalId: string, now: Time)
    requires RowsWellFormed(db) && ConsumeTx(db, call, approvalId, now).1.Ok?
    ensures IsConsumed(ConsumeTx(db, call, approvalId, now).0, approvalId)
  {
    hide RowsWellFormed, ConsumeLocked;
    ConsumeLockedOutcome(db, call, approvalId, now);
  }

  lemma ConsumedStays(before: Db, after: Db, p: string)
    requires Later(before, after) && IsConsumed(before, p)
    ensures IsConsumed(after, p)
  {
  }

  lemma ConsumedIsRefused(db: Db, call: Call, approvalId: string, now: Time)
    requires IsConsumed(db, approvalId)
    ensures ConsumeTx(db, call, approvalId, now).1.Err?
  {
  }
}
